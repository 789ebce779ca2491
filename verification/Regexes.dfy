/**
 The part of the regular-expression language that the client uses: alternatives of
 concatenations of quantified character classes, with optional anchors.
 `Matches` is the denotation of a concatenation; `IsMatch` is the search the crate
 performs.
 */
module Regexes {
  import opened Prelude

  datatype CharClass = Lit(c: char) | NotSlash | NotNewline {
    predicate Has(x: char) {
      match this
      case Lit(c) => x == c
      case NotSlash => x != '/'
      case NotNewline => x != '\n'
    }
  }

  datatype Rep = One | Maybe | Star | Plus

  datatype Item = Item(cls: CharClass, rep: Rep)

  type Pattern = seq<Item>

  /** `anchoredStart` is a leading `^`, `anchoredEnd` a trailing `$`. */
  datatype Regex = Regex(alternatives: seq<Pattern>, anchoredStart: bool, anchoredEnd: bool)

  predicate AllIn(cls: CharClass, s: string) {
    forall i | 0 <= i < |s| :: cls.Has(s[i])
  }

  /** The whole of `s` is in the language of the concatenation `p`. */
  predicate Matches(p: Pattern, s: string)
    decreases |p|
  {
    if p == [] then s == []
    else match p[0].rep
      case One => s != [] && p[0].cls.Has(s[0]) && Matches(p[1..], s[1..])
      case Maybe => Matches(p[1..], s) || (s != [] && p[0].cls.Has(s[0]) && Matches(p[1..], s[1..]))
      case Star => exists k | 0 <= k <= |s| :: AllIn(p[0].cls, s[..k]) && Matches(p[1..], s[k..])
      case Plus => exists k | 1 <= k <= |s| :: AllIn(p[0].cls, s[..k]) && Matches(p[1..], s[k..])
  }

  predicate MatchesAt(r: Regex, s: string, i: nat, j: nat)
    requires i <= j <= |s|
  {
    && (r.anchoredStart ==> i == 0)
    && (r.anchoredEnd ==> j == |s|)
    && exists a | 0 <= a < |r.alternatives| :: Matches(r.alternatives[a], s[i..j])
  }

  /** The expression matches somewhere in `s`. */
  predicate IsMatch(r: Regex, s: string) {
    exists i, j | 0 <= i <= j <= |s| :: MatchesAt(r, s, i, j)
  }

  /** The characters that have a meaning in a pattern and that `Escape` protects. */
  predicate IsMeta(c: char) {
    || c == '\\' || c == '.' || c == '+' || c == '*' || c == '?' || c == '(' || c == ')'
    || c == '|' || c == '[' || c == ']' || c == '{' || c == '}' || c == '^' || c == '$'
  }

  function EscapeChar(c: char): string {
    if IsMeta(c) then ['\\', c] else [c]
  }

  function Escape(s: string): string {
    if s == [] then [] else EscapeChar(s[0]) + Escape(s[1..])
  }

  // ------------------------------------------------------------ reading a pattern

  /** Reads one character class off the front of a pattern text. */
  function ReadClass(t: string): (r: Option<(CharClass, string)>)
    ensures r.Some? ==> |r.value.1| < |t|
  {
    if t == [] then None
    else if t[0] == '\\' then
      if |t| >= 2 && IsMeta(t[1]) then Some((Lit(t[1]), t[2..])) else None
    else if "[^/]" <= t then Some((NotSlash, t[4..]))
    else if t[0] == '.' then Some((NotNewline, t[1..]))
    else if IsMeta(t[0]) then None
    else Some((Lit(t[0]), t[1..]))
  }

  predicate IsQuantifier(c: char) { c == '?' || c == '*' || c == '+' }

  /** Reads the quantifier that follows a character class, if there is one. */
  function ReadRep(t: string): (r: (Rep, string))
    ensures |r.1| <= |t|
  {
    if t == [] then (One, t)
    else if t[0] == '?' then (Maybe, t[1..])
    else if t[0] == '*' then (Star, t[1..])
    else if t[0] == '+' then (Plus, t[1..])
    else (One, t)
  }

  /** Reads a concatenation and tells whether it ends in `$`. */
  function ReadItems(t: string): Option<(Pattern, bool)>
    decreases |t|
  {
    if t == [] then Some(([], false))
    else if t == "$" then Some(([], true))
    else match ReadClass(t)
      case None => None
      case Some((cls, t1)) =>
        var (rep, t2) := ReadRep(t1);
        match ReadItems(t2)
        case None => None
        case Some((items, end)) => Some(([Item(cls, rep)] + items, end))
  }

  /** `Regex::new`. A quantified `^?` asserts nothing, so it leaves the start free. */
  function New(t: string): Option<Regex> {
    var start := "^" <= t && !("^?" <= t);
    var body := if start then t[1..] else if "^?" <= t then t[2..] else t;
    match ReadItems(body)
    case None => None
    case Some((items, end)) => Some(Regex([items], start, end))
  }

  // ------------------------------------------------------------ how patterns compose

  function Literal(s: string): Pattern {
    seq(|s|, i requires 0 <= i < |s| => Item(Lit(s[i]), One))
  }

  /** An anchored expression accepts a text exactly if its one alternative denotes it. */
  lemma AnchoredIsMatch(p: Pattern, s: string)
    ensures IsMatch(Regex([p], true, true), s) <==> Matches(p, s)
  {
    var r := Regex([p], true, true);
    assert s[0..|s|] == s;
    if Matches(p, s) {
      assert Matches(r.alternatives[0], s[0..|s|]);
      assert MatchesAt(r, s, 0, |s|);
    }
  }

  /** A literal prefix of a pattern consumes exactly that prefix of the text. */
  lemma {:induction false} MatchesLiteral(t: string, p: Pattern, s: string)
    ensures Matches(Literal(t) + p, s) <==> t <= s && Matches(p, s[|t|..])
  {
    if t == [] {
      assert Literal(t) + p == p;
      assert s[|t|..] == s;
    } else {
      assert (Literal(t) + p)[1..] == Literal(t[1..]) + p;
      if s != [] {
        MatchesLiteral(t[1..], p, s[1..]);
        if t[0] == s[0] && t[1..] <= s[1..] {
          assert s[1..][|t[1..]|..] == s[|t|..];
          assert t == [t[0]] + t[1..] && s == [s[0]] + s[1..];
        }
        if t <= s { assert t[1..] <= s[1..] && s[1..][|t[1..]|..] == s[|t|..]; }
      }
    }
  }

  /** An escaped character reads back as itself. */
  lemma ReadEscapedChar(c: char, rest: string)
    requires rest != [] && !IsQuantifier(rest[0]) && ReadItems(rest).Some?
    ensures ReadItems(EscapeChar(c) + rest)
      == Some(([Item(Lit(c), One)] + ReadItems(rest).value.0, ReadItems(rest).value.1))
  {
    var text := EscapeChar(c) + rest;
    if IsMeta(c) {
      assert text[2..] == rest;
    } else {
      assert text[0] == c && text[1..] == rest;
      assert IsMeta('\\') && IsMeta('[') && IsMeta('.');
    }
    assert ReadClass(text) == Some((Lit(c), rest));
    assert ReadRep(rest) == (One, rest);
    assert text != "$";
  }

  /** A literal, up to the separator or the end of the text, reads back as itself. */
  lemma {:induction false} ReadEscaped(tok: string, t: string, items: Pattern, end: bool)
    requires t != [] && !IsQuantifier(t[0]) && ReadItems(t) == Some((items, end))
    ensures ReadItems(Escape(tok) + t) == Some((Literal(tok) + items, end))
  {
    LiteralStep(tok, items);
    EscapeStep(tok, t);
    if tok != [] {
      var rest := Escape(tok[1..]) + t;
      ReadEscaped(tok[1..], t, items, end);
      EscapedStart(tok[1..], t);
      ReadEscapedChar(tok[0], rest);
    }
  }

  lemma LiteralStep(tok: string, items: Pattern)
    ensures Literal(tok) + items ==
      if tok == [] then items else [Item(Lit(tok[0]), One)] + (Literal(tok[1..]) + items)
  {
  }

  lemma EscapeStep(tok: string, t: string)
    ensures Escape(tok) + t == if tok == [] then t else EscapeChar(tok[0]) + (Escape(tok[1..]) + t)
  {
  }

  lemma EscapedStart(tok: string, t: string)
    requires t != [] && !IsQuantifier(t[0])
    ensures var text := Escape(tok) + t; text != [] && !IsQuantifier(text[0])
  {
  }
}
