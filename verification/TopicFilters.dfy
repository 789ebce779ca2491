/** Validation, compilation and matching of topic filters (src/proto/topic_filter.rs). */
module TopicFilters {
  import opened Prelude
  import opened Regexes

  datatype TopicFilter = TopicFilter(matcher: Regex, original: string) {
    predicate MatchTopic(topic: string) { IsMatch(matcher, topic) }
  }

  // `(?:[^/]#|#(?:.+))`
  const INVALID_MULTILEVEL: Regex :=
    Regex([[Item(NotSlash, One), Item(Lit('#'), One)], [Item(Lit('#'), One), Item(NotNewline, Plus)]], false, false)

  // `(?:[^/]\x2B|\x2B[^/])`
  const INVALID_SINGLELEVEL: Regex :=
    Regex([[Item(NotSlash, One), Item(Lit('+'), One)], [Item(Lit('+'), One), Item(NotSlash, One)]], false, false)

  /** `s.split("/")`. */
  function Split(s: string): (r: seq<string>)
    ensures r != []
    ensures forall i | 0 <= i < |r| :: '/' !in r[i]
  {
    if s == [] then [[]]
    else
      var r := Split(s[1..]);
      if s[0] == '/' then [[]] + r else [[s[0]] + r[0]] + r[1..]
  }

  /** What a level contributes to the expression. */
  function Piece(tok: string): string {
    if '+' in tok then "[^/]+" else if '#' in tok then "?.*" else Escape(tok)
  }

  function Pieces(toks: seq<string>): seq<string> {
    seq(|toks|, i requires 0 <= i < |toks| => Piece(toks[i]))
  }

  /** `pieces.join("/")`. */
  function Join(pieces: seq<string>): string {
    if pieces == [] then ""
    else if |pieces| == 1 then pieces[0]
    else pieces[0] + "/" + Join(pieces[1..])
  }

  predicate Rejected(s: string) {
    IsMatch(INVALID_SINGLELEVEL, s) || IsMatch(INVALID_MULTILEVEL, s) || s == ""
  }

  /** The value that `FromString` computes. */
  function Compile(s: string): Option<TopicFilter> {
    if Rejected(s) then None
    else match New("^" + Join(Pieces(Split(s))) + "$")
      case None => None
      case Some(r) => Some(TopicFilter(r, s))
  }

  method FromString(s: string) returns (r: Option<TopicFilter>)
    ensures r == Compile(s)
  {
    if IsMatch(INVALID_SINGLELEVEL, s) || IsMatch(INVALID_MULTILEVEL, s) {
      return None;
    }
    if s == "" {
      return None;
    }
    var collect: seq<string> := [];
    var toks := Split(s);
    for n := 0 to |toks|
      invariant collect == Pieces(toks)[..n]
    {
      var tok := toks[n];
      if '+' in tok {
        collect := collect + ["[^/]+"];
      } else if '#' in tok {
        collect := collect + ["?.*"];
      } else {
        collect := collect + [Escape(tok)];
      }
    }
    assert collect == Pieces(toks);
    match New("^" + Join(collect) + "$")
    case None => r := None;
    case Some(re) => r := Some(TopicFilter(re, s));
  }

  // ------------------------------------------------------------ what validation accepts

  /** Section 4.7.1 of MQTT 3.1.1: a wildcard fills its level, and `#` is the last level. */
  predicate LegalLevel(levels: seq<string>, i: nat)
    requires i < |levels|
  {
    && ('+' in levels[i] ==> levels[i] == "+")
    && ('#' in levels[i] ==> levels[i] == "#" && i == |levels| - 1)
  }

  predicate LegalLevels(levels: seq<string>) {
    forall i | 0 <= i < |levels| :: LegalLevel(levels, i)
  }

  /** The character before position `i` allows a wildcard there; `start` stands in at position 0. */
  predicate LevelStart(s: string, start: bool, i: nat)
    requires i < |s|
  {
    if i == 0 then start else s[i - 1] == '/'
  }

  /** The neighbours of the character at `i`, if it is a wildcard, are as validation wants them. */
  predicate LegalAt(s: string, start: bool, i: nat)
    requires i < |s|
  {
    && (s[i] == '+' ==> LevelStart(s, start, i) && (i + 1 == |s| || s[i + 1] == '/'))
    && (s[i] == '#' ==> LevelStart(s, start, i) && (i + 1 == |s| || s[i + 1] == '\n'))
  }

  predicate LegalChars(s: string, start: bool) {
    forall i | 0 <= i < |s| :: LegalAt(s, start, i)
  }

  lemma {:induction false} TwoItems(a: CharClass, b: CharClass, s: string)
    ensures Matches([Item(a, One), Item(b, One)], s) <==> |s| == 2 && a.Has(s[0]) && b.Has(s[1])
  {
    var p, q := [Item(a, One), Item(b, One)], [Item(b, One)];
    assert p[1..] == q && q[1..] == [];
    if s != [] {
      var t := s[1..];
      assert Matches(q, t) <==> t != [] && b.Has(t[0]) && Matches(q[1..], t[1..]);
    }
  }

  lemma {:induction false} FirstThenPlus(a: CharClass, b: CharClass, s: string)
    ensures Matches([Item(a, One), Item(b, Plus)], s) <==> |s| >= 2 && a.Has(s[0]) && AllIn(b, s[1..])
  {
    var p, q := [Item(a, One), Item(b, Plus)], [Item(b, Plus)];
    assert p[1..] == q && q[1..] == [];
    if s != [] {
      var t := s[1..];
      assert t[..|t|] == t && t[|t|..] == [];
      assert Matches(q, t) <==> exists k | 1 <= k <= |t| :: AllIn(b, t[..k]) && Matches(q[1..], t[k..]);
      if t != [] && AllIn(b, t) {
        assert AllIn(b, t[..|t|]) && Matches(q[1..], t[|t|..]);
      }
    }
  }

  /** The single-level check finds exactly the `+` signs with a foreign neighbour. */
  lemma SingleLevelCheck(s: string)
    ensures IsMatch(INVALID_SINGLELEVEL, s) <==>
      exists i | 0 <= i < |s| - 1 :: (s[i] != '/' && s[i + 1] == '+') || (s[i] == '+' && s[i + 1] != '/')
  {
    var r := INVALID_SINGLELEVEL;
    forall i, j | 0 <= i <= j <= |s|
      ensures MatchesAt(r, s, i, j) <==>
        j == i + 2 && ((s[i] != '/' && s[i + 1] == '+') || (s[i] == '+' && s[i + 1] != '/'))
    {
      TwoItems(NotSlash, Lit('+'), s[i..j]);
      TwoItems(Lit('+'), NotSlash, s[i..j]);
      assert Matches(r.alternatives[0], s[i..j]) || Matches(r.alternatives[1], s[i..j]) <==> MatchesAt(r, s, i, j);
    }
    if i :| 0 <= i < |s| - 1 && ((s[i] != '/' && s[i + 1] == '+') || (s[i] == '+' && s[i + 1] != '/')) {
      assert MatchesAt(r, s, i, i + 2);
    }
  }

  /** The multi-level check finds a `#` inside a level, or one followed by anything on its line. */
  lemma MultiLevelCheck(s: string)
    ensures IsMatch(INVALID_MULTILEVEL, s) <==>
      exists i | 0 <= i < |s| - 1 :: (s[i] != '/' && s[i + 1] == '#') || (s[i] == '#' && s[i + 1] != '\n')
  {
    var r := INVALID_MULTILEVEL;
    forall i, j | 0 <= i <= j <= |s|
      ensures MatchesAt(r, s, i, j) <==>
        || (j == i + 2 && s[i] != '/' && s[i + 1] == '#')
        || (j >= i + 2 && s[i] == '#' && AllIn(NotNewline, s[i + 1..j]))
    {
      TwoItems(NotSlash, Lit('#'), s[i..j]);
      FirstThenPlus(Lit('#'), NotNewline, s[i..j]);
      if j >= i + 2 { assert s[i..j][1..] == s[i + 1..j]; }
      assert Matches(r.alternatives[0], s[i..j]) || Matches(r.alternatives[1], s[i..j]) <==> MatchesAt(r, s, i, j);
    }
    if i :| 0 <= i < |s| - 1 && ((s[i] != '/' && s[i + 1] == '#') || (s[i] == '#' && s[i + 1] != '\n')) {
      assert s[i + 1..i + 2] == [s[i + 1]];
      assert MatchesAt(r, s, i, i + 2);
    }
    if i, j :| 0 <= i <= j <= |s| && MatchesAt(r, s, i, j) {
      if j >= i + 2 && s[i] == '#' && AllIn(NotNewline, s[i + 1..j]) {
        assert NotNewline.Has(s[i + 1..j][0]);
      }
    }
  }

  /** Both checks together, on every string. */
  lemma ChecksAreLegalChars(s: string)
    ensures !IsMatch(INVALID_SINGLELEVEL, s) && !IsMatch(INVALID_MULTILEVEL, s) <==> LegalChars(s, true)
  {
    SingleLevelCheck(s);
    MultiLevelCheck(s);
    if LegalChars(s, true) {
      forall i | 0 <= i < |s| - 1
        ensures !(s[i] != '/' && s[i + 1] == '+') && !(s[i] == '+' && s[i + 1] != '/')
        ensures !(s[i] != '/' && s[i + 1] == '#') && !(s[i] == '#' && s[i + 1] != '\n')
      {
        assert LegalAt(s, true, i) && LegalAt(s, true, i + 1);
      }
    } else {
      var i :| 0 <= i < |s| && !LegalAt(s, true, i);
      if i > 0 && s[i - 1] != '/' {
        assert s[(i - 1) + 1] == s[i];
      }
    }
  }

  /** Some `#` has a line break right behind it. */
  predicate BreakAfterHash(s: string) {
    exists i | 0 <= i < |s| - 1 :: s[i] == '#' && s[i + 1] == '\n'
  }

  /** Characters and levels say the same thing, line breaks after `#` aside. */
  lemma {:induction false} CharsAndLevels(s: string, start: bool)
    requires !BreakAfterHash(s)
    ensures start ==> (LegalChars(s, true) <==> LegalLevels(Split(s)))
    ensures !start ==> (LegalChars(s, false) <==>
      '+' !in Split(s)[0] && '#' !in Split(s)[0] && LegalLevels(Split(s)))
  {
    if s != [] {
      var c, t := s[0], s[1..];
      var r, rt := Split(s), Split(t);
      BreakTail(s);
      CharsAndLevels(t, c == '/');
      LegalCharsStep(s, start);
      if c == '/' {
        assert r[1..] == rt;
        LegalLevelsStep(r);
      } else {
        assert r[1..] == rt[1..];
        LegalLevelsStep(r);
        LegalLevelsStep(rt);
        assert c in r[0] && forall x :: x in rt[0] ==> x in r[0];
        assert forall x :: x in r[0] ==> x == c || x in rt[0];
        assert rt[0] == [] <==> t == [] || t[0] == '/';
        assert |rt| == 1 && rt[0] == [] <==> t == [] by { if t != [] && t[0] == '/' { assert |rt| >= 2; } }
        if c == '+' || c == '#' {
          assert rt[0] == [] <==> r[0] == [c];
          if rt[0] == [] {
            assert '+' !in rt[0] && '#' !in rt[0];
          } else {
            assert !LegalLevel(r, 0) by { assert r[0][0] == c; }
          }
        }
      }
    }
  }

  lemma BreakTail(s: string)
    requires s != []
    ensures BreakAfterHash(s) <==> (|s| > 1 && s[0] == '#' && s[1] == '\n') || BreakAfterHash(s[1..])
  {
    var t := s[1..];
    if i :| 0 <= i < |t| - 1 && t[i] == '#' && t[i + 1] == '\n' { assert s[i + 1] == '#' && s[i + 2] == '\n'; }
    if i :| 0 <= i < |s| - 1 && s[i] == '#' && s[i + 1] == '\n' {
      if i > 0 { assert t[i - 1] == '#' && t[i] == '\n'; }
    }
  }

  /** A level that goes on behind a `#` is not legal. */
  lemma {:induction false} BreakIsIllegal(s: string)
    requires BreakAfterHash(s)
    ensures !LegalLevels(Split(s))
  {
    var r, rt := Split(s), Split(s[1..]);
    BreakTail(s);
    if |s| > 1 && s[0] == '#' && s[1] == '\n' {
      assert r[0][0] == '#' && r[0][1] == '\n' by { assert rt[0][0] == '\n'; }
      assert !LegalLevel(r, 0);
    } else {
      BreakIsIllegal(s[1..]);
      LegalLevelsStep(r);
      LegalLevelsStep(rt);
      if s[0] == '/' {
        assert r[1..] == rt;
      } else {
        assert r[1..] == rt[1..];
        if !LegalLevel(rt, 0) { assert forall c | c in rt[0] :: c in r[0]; }
      }
    }
  }

  lemma LegalCharsStep(s: string, start: bool)
    requires s != []
    ensures LegalChars(s, start) <==> LegalAt(s, start, 0) && LegalChars(s[1..], s[0] == '/')
  {
    var t, slash := s[1..], s[0] == '/';
    if LegalChars(s, start) {
      forall i | 0 <= i < |t| ensures LegalAt(t, slash, i) {
        assert LegalAt(s, start, i + 1);
      }
    }
    if LegalAt(s, start, 0) && LegalChars(t, slash) {
      forall i | 0 <= i < |s| ensures LegalAt(s, start, i) {
        if i > 0 { assert LegalAt(t, slash, i - 1); }
      }
    }
  }

  lemma LegalLevelsStep(levels: seq<string>)
    requires levels != []
    ensures LegalLevels(levels) <==> LegalLevel(levels, 0) && (|levels| > 1 ==> LegalLevels(levels[1..]))
  {
    var rest := levels[1..];
    if LegalLevels(levels) {
      forall i | 0 <= i < |rest| ensures LegalLevel(rest, i) { assert LegalLevel(levels, i + 1); }
    }
    if LegalLevel(levels, 0) && LegalLevels(rest) {
      forall i | 0 <= i < |levels| ensures LegalLevel(levels, i) {
        if i > 0 { assert LegalLevel(rest, i - 1); }
      }
    }
  }
}
