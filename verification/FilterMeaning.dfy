/** What accepted topic filters are and what their expressions match, level by level. */
module FilterMeaning {
  import opened Prelude
  import opened Regexes
  import opened TopicFilters

  // ------------------------------------------------------------ the compiled expression

  function LevelItems(tok: string): Pattern {
    if tok == "+" then [Item(NotSlash, Plus)] else Literal(tok)
  }

  /** The items of a list of levels, `#` reaching back over the separator before it. */
  function PatternOf(toks: seq<string>): Pattern
    requires toks != []
  {
    if toks[0] == "#" then [Item(NotNewline, Star)]
    else if |toks| == 1 then LevelItems(toks[0])
    else if toks[1] == "#" then LevelItems(toks[0]) + [Item(Lit('/'), Maybe), Item(NotNewline, Star)]
    else LevelItems(toks[0]) + [Item(Lit('/'), One)] + PatternOf(toks[1..])
  }

  ghost predicate Legal(toks: seq<string>) {
    && toks != []
    && LegalLevels(toks)
    && forall i | 0 <= i < |toks| :: '/' !in toks[i]
  }

  lemma LegalTail(toks: seq<string>)
    requires Legal(toks) && |toks| > 1
    ensures Legal(toks[1..]) && toks[0] != "#"
  {
    LegalLevelsStep(toks);
    assert LegalLevel(toks, 0);
  }

  lemma PiecesTail(toks: seq<string>)
    requires |toks| > 1
    ensures Join(Pieces(toks)) == Piece(toks[0]) + "/" + Join(Pieces(toks[1..]))
  {
    assert Pieces(toks)[1..] == Pieces(toks[1..]);
  }

  /** The text built for a level, followed by a separator or the end, reads as the level's items. */
  lemma ReadLevel(tok: string, t: string)
    requires t != [] && !IsQuantifier(t[0]) && ReadItems(t).Some?
    requires ('+' in tok ==> tok == "+") && '#' !in tok
    ensures ReadItems(Piece(tok) + t) == Some((LevelItems(tok) + ReadItems(t).value.0, ReadItems(t).value.1))
  {
    if tok == "+" {
      var text := Piece(tok) + t;
      assert text[..4] == "[^/]" && "[^/]" <= text;
      assert text[4..] == "+" + t;
      assert ReadRep("+" + t) == (Plus, t);
    } else {
      ReadEscaped(tok, t, ReadItems(t).value.0, ReadItems(t).value.1);
    }
  }

  lemma ReadHash()
    ensures ReadItems(".*$") == Some(([Item(NotNewline, Star)], true))
  {
    var t := ".*$";
    assert t[1..] == "*$" && "*$"[1..] == "$";
    assert ReadClass(t) == Some((NotNewline, "*$"));
    assert ReadRep("*$") == (Star, "$");
    assert ReadItems("$") == Some(([], true));
    assert [Item(NotNewline, Star)] + [] == [Item(NotNewline, Star)];
  }

  /** The text `/?.*` that stands for a final `#`. */
  lemma ReadHashLevel()
    ensures ReadItems("/?.*$") == Some(([Item(Lit('/'), Maybe), Item(NotNewline, Star)], true))
  {
    var t, rest := "/?.*$", "?.*$";
    assert t[1..] == rest && rest[1..] == ".*$";
    assert ReadClass(t) == Some((Lit('/'), rest));
    assert ReadRep(rest) == (Maybe, ".*$");
    ReadHash();
    assert [Item(Lit('/'), Maybe)] + [Item(NotNewline, Star)] == [Item(Lit('/'), Maybe), Item(NotNewline, Star)];
  }

  lemma ReadSeparator(rest: string)
    requires ReadRep(rest) == (One, rest) && ReadItems(rest).Some?
    ensures ReadItems("/" + rest) == Some(([Item(Lit('/'), One)] + ReadItems(rest).value.0, ReadItems(rest).value.1))
  {
    var t := "/" + rest;
    assert t[1..] == rest;
    assert ReadClass(t) == Some((Lit('/'), rest));
  }

  /** The text of a legal list of levels reads back as its pattern. */
  lemma {:induction false} ReadBody(toks: seq<string>)
    requires Legal(toks) && toks[0] != "#"
    ensures ReadItems(Join(Pieces(toks)) + "$") == Some((PatternOf(toks), true))
  {
    assert LegalLevel(toks, 0);
    if |toks| == 1 {
      assert Join(Pieces(toks)) == Piece(toks[0]);
      ReadLevel(toks[0], "$");
      assert LevelItems(toks[0]) + [] == LevelItems(toks[0]);
    } else {
      LegalTail(toks);
      PiecesTail(toks);
      var rest := Join(Pieces(toks[1..])) + "$";
      var t := "/" + rest;
      assert Join(Pieces(toks)) + "$" == Piece(toks[0]) + t;
      if toks[1] == "#" {
        assert LegalLevel(toks, 1);
        assert t == "/?.*$" by { assert Pieces(toks[1..]) == ["?.*"]; }
        ReadHashLevel();
      } else {
        ReadBody(toks[1..]);
        FirstOfBody(toks[1..]);
        ReadSeparator(rest);
        assert LevelItems(toks[0]) + ([Item(Lit('/'), One)] + PatternOf(toks[1..]))
          == LevelItems(toks[0]) + [Item(Lit('/'), One)] + PatternOf(toks[1..]);
      }
      ReadLevel(toks[0], t);
    }
  }

  /** No quantifier can be read at the start of the text of a level other than `#`. */
  lemma FirstOfBody(toks: seq<string>)
    requires Legal(toks) && toks[0] != "#"
    ensures ReadRep(Join(Pieces(toks)) + "$") == (One, Join(Pieces(toks)) + "$")
  {
    assert LegalLevel(toks, 0);
    if |toks| > 1 { PiecesTail(toks); }
  }

  /** Every accepted filter builds, and its expression is the pattern of its levels. */
  lemma CompiledIs(s: string)
    requires s != "" && LegalLevels(Split(s)) && !Rejected(s)
    ensures Compile(s) == Some(TopicFilter(Regex([PatternOf(Split(s))], s != "#", true), s))
  {
    var toks := Split(s);
    var body := Join(Pieces(toks)) + "$";
    assert "^" + Join(Pieces(toks)) + "$" == "^" + body;
    if s == "#" { SplitFirst(s, 1); assert s[..1] == s; }
    if toks[0] == "#" {
      assert LegalLevel(toks, 0) && toks == ["#"];
      JoinSplit(s);
      assert s == "#";
      assert body == "?.*$" && ("^" + body)[2..] == ".*$";
      ReadHash();
    } else {
      ReadBody(toks);
      FirstOfBody(toks);
      assert ("^" + body)[1..] == body;
      assert ("^" + body)[1] == body[0] != '?';
    }
  }

  /** Splitting loses nothing. */
  lemma {:induction false} JoinSplit(s: string)
    ensures Join(Split(s)) == s
  {
    if s != [] {
      JoinSplit(s[1..]);
      var r, rt := Split(s), Split(s[1..]);
      if s[0] == '/' { assert r[1..] == rt; } else { assert r[1..] == rt[1..]; }
    }
  }

  /** The text of a level, `#` apart, reads whatever well-read text follows it. */
  lemma PieceReads(tok: string, t: string)
    requires '+' in tok || '#' !in tok
    requires t != [] && !IsQuantifier(t[0]) && ReadItems(t).Some?
    ensures var text := Piece(tok) + t; text != [] && !IsQuantifier(text[0]) && ReadItems(text).Some?
  {
    if '+' in tok {
      ReadLevel("+", t);
      assert Piece(tok) == Piece("+");
    } else {
      ReadEscaped(tok, t, ReadItems(t).value.0, ReadItems(t).value.1);
      EscapedStart(tok, t);
    }
  }

  lemma HashPieceReads(t: string)
    requires t != [] && !IsQuantifier(t[0]) && ReadItems(t).Some?
    ensures ReadItems(".*" + t).Some?
  {
    var text := ".*" + t;
    assert text[1..] == "*" + t && ("*" + t)[1..] == t;
    assert ReadClass(text) == Some((NotNewline, "*" + t));
    assert ReadRep("*" + t) == (Star, t);
  }

  /** The text reads, except that a `?` in front needs something to stand on. */
  predicate Reads(text: string) {
    && text != []
    && if text[0] == '?' then ReadItems(text[1..]).Some? else !IsQuantifier(text[0]) && ReadItems(text).Some?
  }

  lemma SeparatorReads(rest: string)
    requires Reads(rest)
    ensures Reads("/" + rest) && !IsQuantifier('/')
  {
    var t := "/" + rest;
    assert t[1..] == rest;
    assert ReadClass(t) == Some((Lit('/'), rest));
  }

  lemma OnePiece(tok: string, t: string)
    requires t != [] && !IsQuantifier(t[0]) && ReadItems(t).Some?
    ensures Reads(Piece(tok) + t)
  {
    var text := Piece(tok) + t;
    if '+' in tok || '#' !in tok {
      PieceReads(tok, t);
    } else {
      HashPieceReads(t);
      assert text[0] == '?' && text[1..] == ".*" + t;
    }
  }

  lemma EndReads()
    ensures ReadItems("$").Some? && !IsQuantifier('$')
  {
  }

  /** The text built for any levels reads. */
  lemma {:induction false} BodyBuilds(toks: seq<string>)
    requires toks != []
    ensures Reads(Join(Pieces(toks)) + "$")
  {
    if |toks| == 1 {
      EndReads();
      assert Join(Pieces(toks)) == Piece(toks[0]);
      OnePiece(toks[0], "$");
    } else {
      BodyBuilds(toks[1..]);
      PiecesTail(toks);
      var rest := Join(Pieces(toks[1..])) + "$";
      SeparatorReads(rest);
      var t := "/" + rest;
      assert t[0] == '/';
      OnePiece(toks[0], t);
      JoinsOn(Piece(toks[0]), Join(Pieces(toks[1..])));
    }
  }

  lemma JoinsOn(piece: string, more: string)
    ensures piece + "/" + more + "$" == piece + ("/" + (more + "$"))
  {
  }

  /** The expression that `from_string` puts together always builds. */
  lemma AlwaysBuilds(s: string)
    ensures Compile(s).Some? <==> !Rejected(s)
  {
    BodyBuilds(Split(s));
    var text := Join(Pieces(Split(s))) + "$";
    assert "^" + Join(Pieces(Split(s))) + "$" == "^" + text;
    assert ("^" + text)[1..] == text && ("^" + text)[2..] == text[1..];
    assert ("^" + text)[1] == text[0];
  }

  /** In terms of characters: the wildcards have the right neighbours, a line break after `#` passing as an end. */
  lemma NotRejectedIff(s: string)
    ensures !Rejected(s) <==> s != "" && LegalChars(s, true)
  {
    ChecksAreLegalChars(s);
  }

  /**
   On all strings: what section 4.7.1 of MQTT 3.1.1 allows is accepted, and what is accepted is
   allowed if and only if no `#` has a line break right behind it.
   */
  lemma ValidationIff(s: string)
    ensures s != "" && LegalLevels(Split(s)) ==> Compile(s).Some?
    ensures Compile(s).Some? ==> s != "" && (LegalLevels(Split(s)) <==> !BreakAfterHash(s))
  {
    AlwaysBuilds(s);
    NotRejectedIff(s);
    if BreakAfterHash(s) { BreakIsIllegal(s); } else { CharsAndLevels(s, true); }
  }

  /** So validation is exact on single-line strings. */
  lemma ValidationIsExact(s: string)
    requires '\n' !in s
    ensures Compile(s).Some? <==> s != "" && LegalLevels(Split(s))
  {
    ValidationIff(s);
  }

  /** With a line break in it, a string can go on below its `#` and still be accepted. */
  lemma NewlineEscapesValidation()
    ensures Compile("#\na").Some? && !LegalLevels(Split("#\na"))
  {
    var s := "#\na";
    AlwaysBuilds(s);
    NotRejectedIff(s);
    assert s[0] == '#' && s[1] == '\n';
    BreakIsIllegal(s);
  }

  // ------------------------------------------------------------ the meaning of a filter

  /** `+` stands for one non-empty level, any other level for itself. */
  predicate LevelMatch(f: string, t: string) {
    if f == "+" then t != "" else f == t
  }

  /** The level walk for filters without `#`: as many levels, matching one by one. */
  predicate LevelWalk(fs: seq<string>, ts: seq<string>)
    ensures LevelWalk(fs, ts) ==> |fs| == |ts|
  {
    if fs == [] || ts == [] then fs == [] && ts == []
    else LevelMatch(fs[0], ts[0]) && LevelWalk(fs[1..], ts[1..])
  }

  /** Section 4.7.1.2 of MQTT 3.1.1: `#` stands for the parent level and everything below it. */
  predicate MultiLevelReading(fs: seq<string>, ts: seq<string>)
    requires fs != []
    ensures MultiLevelReading(fs, ts) ==> |ts| >= |fs| - 1
  {
    |fs| == 1 || (ts != [] && LevelMatch(fs[0], ts[0]) && MultiLevelReading(fs[1..], ts[1..]))
  }

  /** The code's reading: of the level before `#` only the beginning has to match. */
  predicate MultiLevelWalk(fs: seq<string>, ts: seq<string>)
    requires |fs| >= 2
    ensures MultiLevelWalk(fs, ts) ==> |ts| >= |fs| - 1
  {
    && ts != []
    && if |fs| == 2 then (if fs[0] == "+" then ts[0] != "" else fs[0] <= ts[0])
       else LevelMatch(fs[0], ts[0]) && MultiLevelWalk(fs[1..], ts[1..])
  }

  /** The first level ends at the first separator, and the rest is split on its own. */
  lemma {:induction false} SplitFirst(s: string, n: nat)
    requires n <= |s| && '/' !in s[..n] && (n < |s| ==> s[n] == '/')
    ensures Split(s)[0] == s[..n]
    ensures n == |s| ==> |Split(s)| == 1
    ensures n < |s| ==> Split(s)[1..] == Split(s[n + 1..])
  {
    if n == 0 {
      assert s[..n] == [];
    } else {
      assert s[0] == s[..n][0];
      assert s[1..][..n - 1] == s[..n][1..];
      assert '/' !in s[1..][..n - 1];
      SplitFirst(s[1..], n - 1);
      assert s[..n] == [s[0]] + s[1..][..n - 1];
      if n < |s| { assert s[1..][n..] == s[n + 1..]; }
      assert Split(s)[1..] == Split(s[1..])[1..];
    }
  }

  /** The length of the first level of `s`. */
  function FirstLen(s: string): (n: nat)
    ensures n <= |s| && '/' !in s[..n] && (n < |s| ==> s[n] == '/')
    ensures forall i | 0 <= i < n :: s[i] != '/'
  {
    if s == [] || s[0] == '/' then 0
    else
      var n := FirstLen(s[1..]);
      assert s[..n + 1] == [s[0]] + s[1..][..n];
      n + 1
  }

  /** What the filter leaves for `/?.*` to match: the text behind the level before its `#`. */
  function Behind(fs: seq<string>, t: string): string
    requires |fs| >= 2
  {
    var n := FirstLen(t);
    if |fs| > 2 then (if n < |t| then Behind(fs[1..], t[n + 1..]) else "")
    else if fs[0] == "+" then t[n..]
    else if |fs[0]| <= |t| then t[|fs[0]|..]
    else ""
  }

  /** The code's reading of a whole topic: the rest has to be on one line. */
  predicate HashWalk(fs: seq<string>, t: string)
    requires |fs| >= 2
  {
    MultiLevelWalk(fs, Split(t)) && AllIn(NotNewline, Behind(fs, t))
  }

  lemma SlashFree(s: string, k: nat)
    requires k <= |s| && AllIn(NotSlash, s[..k])
    ensures forall i | 0 <= i < k :: s[i] != '/'
  {
    forall i | 0 <= i < k ensures s[i] != '/' {
      assert NotSlash.Has(s[..k][i]);
    }
  }

  /** A `+` level followed by a separator or by nothing consumes exactly the first level. */
  lemma SingleLevelItems(p: Pattern, s: string)
    requires p == [] || p[0] == Item(Lit('/'), One)
    ensures Matches([Item(NotSlash, Plus)] + p, s) <==>
      FirstLen(s) > 0 && Matches(p, s[FirstLen(s)..])
  {
    var q, n := [Item(NotSlash, Plus)] + p, FirstLen(s);
    assert q[1..] == p;
    if n > 0 && Matches(p, s[n..]) {
      assert AllIn(NotSlash, s[..n]) && Matches(q[1..], s[n..]);
    }
    if Matches(q, s) {
      var k :| 1 <= k <= |s| && AllIn(NotSlash, s[..k]) && Matches(q[1..], s[k..]);
      SlashFree(s, k);
      assert k <= n;
      assert k == |s| || s[k..][0] == '/';
      assert k == n;
    }
  }

  /** A `+` level before a `#` can take all of the first level, and more is not on offer. */
  lemma SingleLevelBeforeHash(p: Pattern, s: string)
    requires forall t: string :: Matches(p, t) <==> AllIn(NotNewline, t)
    ensures Matches([Item(NotSlash, Plus)] + p, s) <==> FirstLen(s) > 0 && AllIn(NotNewline, s[FirstLen(s)..])
  {
    var q, n := [Item(NotSlash, Plus)] + p, FirstLen(s);
    assert q[1..] == p;
    if n > 0 && AllIn(NotNewline, s[n..]) {
      assert AllIn(NotSlash, s[..n]) && Matches(q[1..], s[n..]);
    }
    if Matches(q, s) {
      var k :| 1 <= k <= |s| && AllIn(NotSlash, s[..k]) && Matches(q[1..], s[k..]);
      SlashFree(s, k);
      assert k <= n && s[0] != '/';
      forall i | 0 <= i < |s[n..]| ensures NotNewline.Has(s[n..][i]) { assert NotNewline.Has(s[k..][n - k + i]); }
    }
  }

  /** A slash-free literal followed by a separator or by nothing is the first level. */
  lemma LiteralIsFirstLevel(f: string, s: string)
    requires '/' !in f
    ensures f <= s && (|f| < |s| ==> s[|f|] == '/') <==> s[..FirstLen(s)] == f
    ensures f <= s <==> f <= s[..FirstLen(s)]
  {
    var n := FirstLen(s);
    if f <= s {
      forall i | 0 <= i < |f| ensures s[i] != '/' { assert f[i] in f; }
      assert |f| <= n;
      assert s[..n][..|f|] == f;
    }
    if f <= s[..n] { assert s[..n][..|f|] == s[..|f|]; }
  }

  /** One level of a pattern, followed by a separator or by nothing, takes the first level. */
  lemma LevelStep(f: string, p: Pattern, s: string)
    requires '/' !in f && (p == [] || p[0] == Item(Lit('/'), One))
    ensures Matches(LevelItems(f) + p, s) <==>
      LevelMatch(f, s[..FirstLen(s)]) && Matches(p, s[FirstLen(s)..])
  {
    if f == "+" {
      SingleLevelItems(p, s);
    } else {
      MatchesLiteral(f, p, s);
      LiteralIsFirstLevel(f, s);
    }
  }

  lemma SeparatorStep(p: Pattern, s: string)
    ensures Matches([Item(Lit('/'), One)] + p, s) <==> s != [] && s[0] == '/' && Matches(p, s[1..])
  {
    assert ([Item(Lit('/'), One)] + p)[1..] == p;
  }

  /** A pattern of several levels takes the first level, a separator, and goes on. */
  lemma PatternStep(fs: seq<string>, s: string)
    requires Legal(fs) && |fs| >= 2 && fs[1] != "#"
    ensures Matches(PatternOf(fs), s) <==>
      var n := FirstLen(s);
      LevelMatch(fs[0], s[..n]) && n < |s| && Matches(PatternOf(fs[1..]), s[n + 1..])
  {
    LegalTail(fs);
    var n, q := FirstLen(s), PatternOf(fs[1..]);
    var p := [Item(Lit('/'), One)] + q;
    assert PatternOf(fs) == LevelItems(fs[0]) + p;
    LevelStep(fs[0], p, s);
    SeparatorStep(q, s[n..]);
    if n < |s| { assert s[n..][1..] == s[n + 1..]; }
  }

  /** The level walk over a text goes on behind its first separator. */
  lemma WalkStep(fs: seq<string>, s: string)
    requires |fs| >= 2
    ensures var n := FirstLen(s);
      LevelWalk(fs, Split(s)) <==> LevelMatch(fs[0], s[..n]) && n < |s| && LevelWalk(fs[1..], Split(s[n + 1..]))
  {
    var n, ts := FirstLen(s), Split(s);
    SplitFirst(s, n);
    if n < |s| { WalkOn(fs, ts, s[..n], Split(s[n + 1..])); }
  }

  lemma WalkOn(fs: seq<string>, ts: seq<string>, first: string, rest: seq<string>)
    requires fs != [] && ts != [] && ts[0] == first && ts[1..] == rest
    ensures LevelWalk(fs, ts) <==> LevelMatch(fs[0], first) && LevelWalk(fs[1..], rest)
  {
  }

  /** The last level takes the whole text, if it has no separator. */
  lemma LastLevel(f: string, s: string)
    requires '/' !in f
    ensures Matches(LevelItems(f), s) <==> LevelWalk([f], Split(s))
  {
    SplitFirst(s, FirstLen(s));
    assert LevelItems(f) + [] == LevelItems(f);
    LevelStep(f, [], s);
    assert [f][1..] == [];
  }

  lemma NoHashAhead(fs: seq<string>)
    requires Legal(fs) && |fs| >= 2 && fs[|fs| - 1] != "#"
    ensures fs[1] != "#" && Legal(fs[1..]) && fs[1..][|fs[1..]| - 1] != "#"
  {
    LegalTail(fs);
    assert LegalLevel(fs, 1);
  }

  /** If pattern and walk agree behind the first separator, they agree. */
  lemma StepsAgree(fs: seq<string>, s: string, n: nat)
    requires Legal(fs) && |fs| >= 2 && fs[1] != "#" && n == FirstLen(s)
    requires n < |s| ==> (Matches(PatternOf(fs[1..]), s[n + 1..]) <==> LevelWalk(fs[1..], Split(s[n + 1..])))
    ensures Matches(PatternOf(fs), s) <==> LevelWalk(fs, Split(s))
  {
    PatternStep(fs, s);
    WalkStep(fs, s);
  }

  lemma OneLevel(fs: seq<string>, s: string)
    requires Legal(fs) && |fs| == 1 && fs[0] != "#"
    ensures Matches(PatternOf(fs), s) <==> LevelWalk(fs, Split(s))
  {
    assert fs == [fs[0]];
    LastLevel(fs[0], s);
  }

  /** Without `#`, the pattern matches exactly what the level walk accepts. */
  lemma {:induction false} PatternWalk(fs: seq<string>, s: string)
    requires Legal(fs) && fs[|fs| - 1] != "#"
    ensures Matches(PatternOf(fs), s) <==> LevelWalk(fs, Split(s))
  {
    if |fs| == 1 {
      OneLevel(fs, s);
    } else {
      NoHashAhead(fs);
      var n := FirstLen(s);
      if n < |s| { PatternWalk(fs[1..], s[n + 1..]); }
      StepsAgree(fs, s, n);
    }
  }

  /** The tail `/?.*` takes exactly the texts on one line. */
  lemma HashTail(s: string)
    ensures Matches([Item(NotNewline, Star)], s) <==> AllIn(NotNewline, s)
    ensures Matches([Item(Lit('/'), Maybe), Item(NotNewline, Star)], s) <==> AllIn(NotNewline, s)
  {
    var p, q := [Item(Lit('/'), Maybe), Item(NotNewline, Star)], [Item(NotNewline, Star)];
    assert p[1..] == q;
    StarTail(s);
    if s != [] && s[0] == '/' {
      StarTail(s[1..]);
      if AllIn(NotNewline, s[1..]) {
        forall i | 0 <= i < |s| ensures NotNewline.Has(s[i]) {
          if i > 0 { assert NotNewline.Has(s[1..][i - 1]); }
        }
      }
    }
  }

  lemma StarTail(s: string)
    ensures Matches([Item(NotNewline, Star)], s) <==> AllIn(NotNewline, s)
  {
    var q := [Item(NotNewline, Star)];
    assert q[1..] == [] && s[..|s|] == s && s[|s|..] == [];
    if AllIn(NotNewline, s) { assert AllIn(NotNewline, s[..|s|]) && Matches(q[1..], s[|s|..]); }
    if Matches(q, s) {
      var k :| 0 <= k <= |s| && AllIn(NotNewline, s[..k]) && Matches(q[1..], s[k..]);
      assert s[..k] == s;
    }
  }

  /** The level before `#` need only begin like the first level of the text, and the rest is on one line. */
  lemma LevelBeforeHash(f: string, s: string)
    requires '/' !in f
    ensures Matches(LevelItems(f) + [Item(Lit('/'), Maybe), Item(NotNewline, Star)], s) <==>
      if f == "+" then FirstLen(s) > 0 && AllIn(NotNewline, s[FirstLen(s)..])
      else f <= s[..FirstLen(s)] && AllIn(NotNewline, s[|f|..])
  {
    var p := [Item(Lit('/'), Maybe), Item(NotNewline, Star)];
    forall t: string ensures Matches(p, t) <==> AllIn(NotNewline, t) { HashTail(t); }
    if f == "+" {
      SingleLevelBeforeHash(p, s);
    } else {
      MatchesLiteral(f, p, s);
      LiteralIsFirstLevel(f, s);
    }
  }

  lemma HashLevel(fs: seq<string>, s: string)
    requires Legal(fs) && |fs| == 2 && fs[1] == "#"
    ensures Matches(PatternOf(fs), s) <==> HashWalk(fs, s)
  {
    LegalTail(fs);
    SplitFirst(s, FirstLen(s));
    LevelBeforeHash(fs[0], s);
  }

  /** The prefix walk over a text goes on behind its first separator. */
  lemma PrefixWalkStep(fs: seq<string>, s: string)
    requires |fs| >= 3
    ensures var n := FirstLen(s);
      MultiLevelWalk(fs, Split(s)) <==> LevelMatch(fs[0], s[..n]) && n < |s| && MultiLevelWalk(fs[1..], Split(s[n + 1..]))
  {
    var n, ts := FirstLen(s), Split(s);
    SplitFirst(s, n);
    if n < |s| { PrefixWalkOn(fs, ts, s[..n], Split(s[n + 1..])); }
  }

  lemma PrefixWalkOn(fs: seq<string>, ts: seq<string>, first: string, rest: seq<string>)
    requires |fs| >= 3 && ts != [] && ts[0] == first && ts[1..] == rest
    ensures MultiLevelWalk(fs, ts) <==> LevelMatch(fs[0], first) && MultiLevelWalk(fs[1..], rest)
  {
  }

  lemma HashWalkStep(fs: seq<string>, s: string)
    requires |fs| >= 3
    ensures var n := FirstLen(s);
      HashWalk(fs, s) <==> LevelMatch(fs[0], s[..n]) && n < |s| && HashWalk(fs[1..], s[n + 1..])
  {
    PrefixWalkStep(fs, s);
  }

  lemma PatternStepTo(fs: seq<string>, s: string, n: nat, tail: bool)
    requires Legal(fs) && |fs| >= 2 && fs[1] != "#" && n == FirstLen(s)
    requires n < |s| ==> (Matches(PatternOf(fs[1..]), s[n + 1..]) <==> tail)
    ensures Matches(PatternOf(fs), s) <==> LevelMatch(fs[0], s[..n]) && n < |s| && tail
  {
    PatternStep(fs, s);
  }

  lemma HashStepTo(fs: seq<string>, s: string, n: nat, tail: bool)
    requires |fs| >= 3 && n == FirstLen(s) && (n < |s| ==> (HashWalk(fs[1..], s[n + 1..]) <==> tail))
    ensures HashWalk(fs, s) <==> LevelMatch(fs[0], s[..n]) && n < |s| && tail
  {
    HashWalkStep(fs, s);
  }

  lemma HashFurtherOn(fs: seq<string>)
    requires Legal(fs) && |fs| >= 3
    ensures fs[1] != "#" && Legal(fs[1..]) && fs[1..][|fs[1..]| - 1] == fs[|fs| - 1]
  {
    LegalTail(fs);
    assert LegalLevel(fs, 1);
  }

  /** With a final `#`, the pattern matches what the prefix walk accepts, if the rest is on one line. */
  lemma {:induction false} PatternMultiLevelWalk(fs: seq<string>, s: string)
    requires Legal(fs) && |fs| >= 2 && fs[|fs| - 1] == "#"
    ensures Matches(PatternOf(fs), s) <==> HashWalk(fs, s)
  {
    if |fs| == 2 {
      HashLevel(fs, s);
    } else {
      HashFurtherOn(fs);
      var n := FirstLen(s);
      if n < |s| { PatternMultiLevelWalk(fs[1..], s[n + 1..]); }
      var tail := n < |s| && HashWalk(fs[1..], s[n + 1..]);
      PatternStepTo(fs, s, n, tail);
      HashStepTo(fs, s, n, tail);
    }
  }

  // ------------------------------------------------------------ main results

  /** An accepted filter without `#` matches the topics that the level walk accepts. */
  lemma MatchIsLevelWalk(s: string, f: TopicFilter, topic: string)
    requires Compile(s) == Some(f) && '#' !in s
    ensures f.MatchTopic(topic) <==> LevelWalk(Split(s), Split(topic))
  {
    var fs := Split(s);
    NotRejectedIff(s);
    CharsAndLevels(s, true);
    CompiledIs(s);
    AnchoredIsMatch(PatternOf(fs), topic);
    if fs[|fs| - 1] == "#" { LevelOf(s, |fs| - 1, '#'); }
    PatternWalk(fs, topic);
  }

  /** A legal string with a `#` has it as its last level. */
  lemma {:induction false} HashIsLast(s: string)
    requires LegalLevels(Split(s)) && '#' in s
    ensures Split(s)[|Split(s)| - 1] == "#"
  {
    var fs := Split(s);
    JoinSplit(s);
    var i := JoinHas(fs, '#');
    assert LegalLevel(fs, i);
  }

  lemma {:induction false} JoinHas(levels: seq<string>, c: char) returns (i: nat)
    requires c in Join(levels) && c != '/'
    ensures i < |levels| && c in levels[i]
  {
    if |levels| == 1 || c in levels[0] {
      i := 0;
    } else {
      i := JoinHas(levels[1..], c);
      i := i + 1;
    }
  }

  lemma HasTwoLevels(s: string, f: TopicFilter)
    requires !BreakAfterHash(s) && Compile(s) == Some(f) && '#' in s && s != "#"
    ensures |Split(s)| >= 2 && Legal(Split(s)) && Split(s)[|Split(s)| - 1] == "#"
    ensures f.matcher == Regex([PatternOf(Split(s))], true, true)
  {
    ValidationIff(s);
    HashIsLast(s);
    JoinSplit(s);
    CompiledIs(s);
  }

  /**
   An accepted filter ending in `/#` matches the topics that the prefix walk accepts and that
   have no line break behind the level before the `#`.
   */
  lemma MatchIsMultiLevelWalk(s: string, f: TopicFilter, topic: string)
    requires !BreakAfterHash(s) && Compile(s) == Some(f) && '#' in s && s != "#"
    ensures |Split(s)| >= 2
    ensures f.MatchTopic(topic) <==> HashWalk(Split(s), topic)
  {
    HasTwoLevels(s, f);
    MatcherMultiLevelWalk(f, Split(s), topic);
  }

  lemma MatcherMultiLevelWalk(f: TopicFilter, fs: seq<string>, topic: string)
    requires Legal(fs) && |fs| >= 2 && fs[|fs| - 1] == "#" && f.matcher == Regex([PatternOf(fs)], true, true)
    ensures f.MatchTopic(topic) <==> HashWalk(fs, topic)
  {
    AnchoredIsMatch(PatternOf(fs), topic);
    PatternMultiLevelWalk(fs, topic);
  }

  lemma TailOneLine(t: string, k: nat)
    requires k <= |t| && AllIn(NotNewline, t)
    ensures AllIn(NotNewline, t[k..])
  {
    forall i: nat | i < |t| - k ensures NotNewline.Has(t[k..][i]) { assert t[k..][i] == t[k + i]; }
  }

  /** On a topic without line breaks nothing is behind that could break. */
  lemma {:induction false} BehindOneLine(fs: seq<string>, t: string)
    requires |fs| >= 2 && AllIn(NotNewline, t)
    ensures AllIn(NotNewline, Behind(fs, t))
  {
    var n := FirstLen(t);
    if |fs| > 2 && n < |t| {
      TailOneLine(t, n + 1);
      BehindOneLine(fs[1..], t[n + 1..]);
    }
  }

  /** So on topics without line breaks matching is the prefix walk alone. */
  lemma MatchOnOneLine(s: string, f: TopicFilter, topic: string)
    requires !BreakAfterHash(s) && Compile(s) == Some(f) && '#' in s && s != "#" && '\n' !in topic
    ensures |Split(s)| >= 2
    ensures f.MatchTopic(topic) <==> MultiLevelWalk(Split(s), Split(topic))
  {
    HasTwoLevels(s, f);
    MatchIsMultiLevelWalk(s, f, topic);
    BehindOneLine(Split(s), topic);
  }

  /** The filter `#` matches every topic. */
  lemma HashMatchesAll(topic: string)
    ensures Compile("#").Some? && Compile("#").value.MatchTopic(topic)
  {
    SplitFirst("#", 1);
    var fs := Split("#");
    assert "#"[..1] == "#" && fs == ["#"];
    assert LegalLevels(fs);
    ValidationIsExact("#");
    CompiledIs("#");
    var r, n := Compile("#").value.matcher, |topic|;
    assert topic[n..n] == [];
    HashTail(topic[n..n]);
    assert Matches(r.alternatives[0], topic[n..n]);
    assert MatchesAt(r, topic, n, n);
  }

  /** The prefix walk takes in the level reading, and coincides with it before a `+/#`. */
  lemma {:induction false} WalkCoversReading(fs: seq<string>, ts: seq<string>)
    requires |fs| >= 2
    ensures MultiLevelReading(fs, ts) ==> MultiLevelWalk(fs, ts)
    ensures fs[|fs| - 2] == "+" ==> (MultiLevelWalk(fs, ts) <==> MultiLevelReading(fs, ts))
  {
    if |fs| > 2 && ts != [] { WalkCoversReading(fs[1..], ts[1..]); }
    if |fs| == 2 && ts != [] { assert MultiLevelReading(fs[1..], ts[1..]); }
  }

  /**
   Section 4.7.1.2 of MQTT 3.1.1 against the code, with `oneLine` for no break behind the level
   before the `#`: what it accepts is matched on one line and missed otherwise, and before a `+/#`
   nothing else is matched.
   */
  predicate ReadsOnOneLine(fs: seq<string>, ts: seq<string>, matches: bool, oneLine: bool)
    requires |fs| >= 2
  {
    && (MultiLevelReading(fs, ts) ==> (matches <==> oneLine))
    && (fs[|fs| - 2] == "+" ==> (matches <==> MultiLevelReading(fs, ts) && oneLine))
  }

  lemma MultiLevelComplete(s: string, f: TopicFilter, topic: string)
    requires !BreakAfterHash(s) && Compile(s) == Some(f) && '#' in s && s != "#"
    ensures |Split(s)| >= 2
    ensures ReadsOnOneLine(Split(s), Split(topic), f.MatchTopic(topic), AllIn(NotNewline, Behind(Split(s), topic)))
  {
    HasTwoLevels(s, f);
    MatchIsMultiLevelWalk(s, f, topic);
    assert HashWalk(Split(s), topic) <==> MultiLevelWalk(Split(s), Split(topic)) && AllIn(NotNewline, Behind(Split(s), topic));
    WalkReads(Split(s), Split(topic), f.MatchTopic(topic), AllIn(NotNewline, Behind(Split(s), topic)));
  }

  lemma WalkReads(fs: seq<string>, ts: seq<string>, matches: bool, oneLine: bool)
    requires |fs| >= 2 && (matches <==> MultiLevelWalk(fs, ts) && oneLine)
    ensures ReadsOnOneLine(fs, ts, matches, oneLine)
  {
    WalkCoversReading(fs, ts);
  }

  /** The topics that section 4.7.1.2 accepts and the code misses. */
  predicate Missed(fs: seq<string>, topic: string)
    requires |fs| >= 2
  {
    MultiLevelReading(fs, Split(topic)) && !AllIn(NotNewline, Behind(fs, topic))
  }

  /** The topics that the code matches and section 4.7.1.2 does not. */
  predicate Overmatched(fs: seq<string>, topic: string)
    requires |fs| >= 2
  {
    !MultiLevelReading(fs, Split(topic)) && HashWalk(fs, topic)
  }

  /** On every topic, code and section 4.7.1.2 agree unless it is of one of these kinds. */
  lemma AgreesIff(s: string, f: TopicFilter, topic: string)
    requires !BreakAfterHash(s) && Compile(s) == Some(f) && '#' in s && s != "#"
    ensures |Split(s)| >= 2
    ensures (f.MatchTopic(topic) <==> MultiLevelReading(Split(s), Split(topic)))
      <==> !Missed(Split(s), topic) && !Overmatched(Split(s), topic)
  {
    HasTwoLevels(s, f);
    MatchIsMultiLevelWalk(s, f, topic);
    WalkAgrees(Split(s), topic, f.MatchTopic(topic));
  }

  lemma WalkAgrees(fs: seq<string>, topic: string, matches: bool)
    requires |fs| >= 2 && (matches <==> HashWalk(fs, topic))
    ensures (matches <==> MultiLevelReading(fs, Split(topic))) <==> !Missed(fs, topic) && !Overmatched(fs, topic)
  {
    WalkCoversReading(fs, Split(topic));
  }

  /** The topic that follows the filter level by level, with one more character at the end. */
  function Overshoot(fs: seq<string>): (ts: seq<string>)
    requires |fs| >= 2
    ensures |ts| == |fs| - 1
  {
    if |fs| == 2 then [fs[0] + "x"]
    else [if fs[0] == "+" then "x" else fs[0]] + Overshoot(fs[1..])
  }

  lemma {:induction false} SplitJoin(levels: seq<string>)
    requires levels != [] && forall i | 0 <= i < |levels| :: '/' !in levels[i]
    ensures Split(Join(levels)) == levels
  {
    var s := Join(levels);
    if |levels| == 1 {
      assert s[..|s|] == s;
      SplitFirst(s, |s|);
    } else {
      var n := |levels[0]|;
      SplitJoin(levels[1..]);
      assert s[..n] == levels[0] && s[n] == '/' && s[n + 1..] == Join(levels[1..]);
      SplitFirst(s, n);
    }
  }

  /**
   On the topics without a break behind the level before the `#`, a filter ending in `/#` reads as
   section 4.7.1.2 says if and only if that level is `+`.
   */
  lemma MultiLevelExactIff(s: string, f: TopicFilter)
    requires !BreakAfterHash(s) && Compile(s) == Some(f) && '#' in s && s != "#"
    ensures |Split(s)| >= 2
    ensures (forall topic: string | AllIn(NotNewline, Behind(Split(s), topic)) ::
      f.MatchTopic(topic) <==> MultiLevelReading(Split(s), Split(topic)))
      <==> Split(s)[|Split(s)| - 2] == "+"
  {
    HasTwoLevels(s, f);
    var fs := Split(s);
    if fs[|fs| - 2] == "+" {
      forall topic: string | AllIn(NotNewline, Behind(fs, topic))
        ensures f.MatchTopic(topic) <==> MultiLevelReading(fs, Split(topic))
      {
        MultiLevelComplete(s, f, topic);
      }
    } else {
      var topic := OvershootRefutes(s, f);
    }
  }

  /** The overshooting topic is within the prefix walk and outside the level reading. */
  lemma {:induction false} OvershootWalks(fs: seq<string>)
    requires |fs| >= 2 && fs[|fs| - 2] != "+"
    ensures MultiLevelWalk(fs, Overshoot(fs)) && !MultiLevelReading(fs, Overshoot(fs))
  {
    if |fs| > 2 {
      OvershootWalks(fs[1..]);
      assert Overshoot(fs)[1..] == Overshoot(fs[1..]);
    } else {
      assert !LevelMatch(fs[0], Overshoot(fs)[0]);
    }
  }

  /** A level followed by a separator is the first level. */
  lemma {:induction false} FirstLenOf(level: string, rest: string)
    requires '/' !in level
    ensures FirstLen(level + "/" + rest) == |level|
  {
    var t := level + "/" + rest;
    if level != [] {
      assert t[0] == level[0] && t[0] in level;
      assert t[1..] == level[1..] + "/" + rest;
      FirstLenOf(level[1..], rest);
    }
  }

  lemma BehindLevel(level: string, rest: string)
    ensures (level + "/" + rest)[|level| + 1..] == rest && (level + "/" + rest)[|level|..] == "/" + rest
  {
  }

  /** The one character more is all that is left behind. */
  lemma {:induction false} OvershootBehind(fs: seq<string>)
    requires |fs| >= 2 && fs[|fs| - 2] != "+" && forall i | 0 <= i < |fs| :: '/' !in fs[i]
    ensures Behind(fs, Join(Overshoot(fs))) == "x"
    ensures forall i | 0 <= i < |Overshoot(fs)| :: '/' !in Overshoot(fs)[i]
  {
    var ts := Overshoot(fs);
    if |fs| == 2 {
      assert Join(ts) == fs[0] + "x";
    } else {
      OvershootBehind(fs[1..]);
      assert ts[1..] == Overshoot(fs[1..]);
      FirstLenOf(ts[0], Join(ts[1..]));
      BehindLevel(ts[0], Join(ts[1..]));
    }
  }

  lemma OvershootOvermatched(fs: seq<string>, topic: string)
    requires |fs| >= 2 && fs[|fs| - 2] != "+" && (forall i | 0 <= i < |fs| :: '/' !in fs[i]) && topic == Join(Overshoot(fs))
    ensures Overmatched(fs, topic)
  {
    OvershootBehind(fs);
    SplitJoin(Overshoot(fs));
    OvershootWalks(fs);
  }

  /** If the level before the `#` is not `+`, some topic is matched against section 4.7.1.2. */
  lemma OvershootRefutes(s: string, f: TopicFilter) returns (topic: string)
    requires !BreakAfterHash(s) && Compile(s) == Some(f) && '#' in s && s != "#"
    requires |Split(s)| >= 2 && Split(s)[|Split(s)| - 2] != "+"
    ensures Overmatched(Split(s), topic) && f.MatchTopic(topic)
  {
    topic := Join(Overshoot(Split(s)));
    OvershootOvermatched(Split(s), topic);
    MatchIsMultiLevelWalk(s, f, topic);
  }

  /** The topic that follows the filter level by level, with a line break in place of the `#`. */
  function Broken(fs: seq<string>): (ts: seq<string>)
    requires fs != []
    ensures |ts| == |fs|
  {
    if |fs| == 1 then ["\n"] else [if fs[0] == "+" then "x" else fs[0]] + Broken(fs[1..])
  }

  lemma {:induction false} BrokenReads(fs: seq<string>)
    requires |fs| >= 2 && forall i | 0 <= i < |fs| :: '/' !in fs[i]
    ensures MultiLevelReading(fs, Broken(fs)) && Behind(fs, Join(Broken(fs))) == "/\n"
    ensures forall i | 0 <= i < |Broken(fs)| :: '/' !in Broken(fs)[i]
  {
    var ts := Broken(fs);
    assert ts[1..] == Broken(fs[1..]);
    FirstLenOf(ts[0], Join(ts[1..]));
    BehindLevel(ts[0], Join(ts[1..]));
    if |fs| == 2 {
      assert Join(ts) == ts[0] + "/" + "\n";
    } else {
      BrokenReads(fs[1..]);
    }
  }

  /** For every filter ending in `/#`, some topic that section 4.7.1.2 accepts is missed. */
  lemma LineBreakMissed(s: string, f: TopicFilter) returns (topic: string)
    requires !BreakAfterHash(s) && Compile(s) == Some(f) && '#' in s && s != "#"
    ensures |Split(s)| >= 2 && Missed(Split(s), topic) && !f.MatchTopic(topic)
  {
    HasTwoLevels(s, f);
    var fs := Split(s);
    topic := Join(Broken(fs));
    BrokenReads(fs);
    SplitJoin(Broken(fs));
    assert Behind(fs, topic)[1] == '\n';
    MatchIsMultiLevelWalk(s, f, topic);
  }

  lemma SamplesRead()
    ensures Overmatched(["a", "#"], "ab") && Missed(["a", "#"], "a/\n")
  {
    var fs := ["a", "#"];
    SplitFirst("ab", 2);
    SplitFirst("a/\n", 1);
    assert "ab"[..2] == "ab" && "a/\n"[..1] == "a";
    assert fs[1..] == ["#"] && !LevelMatch("a", "ab");
    assert Behind(fs, "ab") == "b" && Behind(fs, "a/\n") == "/\n";
    assert "/\n"[1] == '\n';
  }

  /** One of each: `a/#` matches `ab`, and misses `a` with a line break below it. */
  lemma HashSamples()
    ensures Compile("a/#").Some? && Compile("a/#").value.MatchTopic("ab") && !Compile("a/#").value.MatchTopic("a/\n")
    ensures !MultiLevelReading(Split("a/#"), Split("ab")) && MultiLevelReading(Split("a/#"), Split("a/\n"))
  {
    var s, fs := "a/#", ["a", "#"];
    assert Join(fs) == s;
    SplitJoin(fs);
    assert LegalLevels(fs);
    ValidationIff(s);
    SamplesRead();
    AgreesIff(s, Compile(s).value, "ab");
    AgreesIff(s, Compile(s).value, "a/\n");
  }

  /** A character of a level is a character of the string. */
  lemma {:induction false} LevelOf(s: string, i: nat, c: char)
    requires i < |Split(s)| && c in Split(s)[i]
    ensures c in s
  {
    if s != [] && !(s[0] != '/' && i == 0 && s[0] == c) {
      var r := Split(s[1..]);
      if s[0] == '/' {
        LevelOf(s[1..], i - 1, c);
      } else {
        LevelOf(s[1..], i, c);
      }
    }
  }
}
