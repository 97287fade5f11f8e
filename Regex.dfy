/** The fragment of Python's regular expressions that the application's validators use,
    with its meaning given as a set of strings: `Matches(r, s)` holds when the whole of `s`
    matches `r` (a pattern between `^` and `$`). */
module Regex {
  import opened Text

  /** Character classes: `\w`, `\s`, `\d`, `[a-zA-Z]` and a set of literal characters. */
  datatype CharClass = Word | Space | Digit | Letter | OneOf(chars: string)

  predicate InClass(c: char, cls: CharClass)
  {
    match cls
    case Word => IsWordChar(c)
    case Space => IsSpace(c)
    case Digit => IsDigit(c)
    case Letter => IsLetter(c)
    case OneOf(chars) => c in chars
  }

  predicate AllIn(s: string, cls: CharClass)
  {
    forall i :: 0 <= i < |s| ==> InClass(s[i], cls)
  }

  datatype Regex =
    | Repeat(cls: CharClass, min: nat, max: nat)  // cls{min,max}
    | Concat(first: Regex, rest: Regex)           // first rest
    | AnyOf(alternatives: seq<Regex>)             // (a|b|...)
    | Plus(body: Regex)                           // body+
    | Star(body: Regex)                           // body*

  /** A single character of a class, `cls` or `cls{1}`. */
  function One(cls: CharClass): Regex { Repeat(cls, 1, 1) }

  /** The language of a pattern. A repetition is split into non-empty pieces, which
      loses nothing: empty pieces can be dropped from any split. */
  ghost predicate Matches(r: Regex, s: string)
    decreases r, |s|
  {
    match r
    case Repeat(cls, lo, hi) => lo <= |s| <= hi && AllIn(s, cls)
    case Concat(a, b) => exists k :: 0 <= k <= |s| && Matches(a, s[..k]) && Matches(b, s[k..])
    case AnyOf(alts) => exists i :: 0 <= i < |alts| && Matches(alts[i], s)
    case Plus(body) =>
      Matches(body, s) || exists k :: 0 < k < |s| && Matches(body, s[..k]) && Matches(r, s[k..])
    case Star(body) =>
      s == [] || exists k :: 0 < k <= |s| && Matches(body, s[..k]) && Matches(r, s[k..])
  }

  /** `cls+` matches exactly the non-empty runs of `cls`. */
  lemma {:induction false} PlusOneIsRun(cls: CharClass, s: string)
    ensures Matches(Plus(One(cls)), s) <==> |s| > 0 && AllIn(s, cls)
    decreases |s|
  {
    if Matches(Plus(One(cls)), s) && !Matches(One(cls), s) {
      var k :| 0 < k < |s| && Matches(One(cls), s[..k]) && Matches(Plus(One(cls)), s[k..]);
      PlusOneIsRun(cls, s[k..]);
      assert s == s[..k] + s[k..];
    }
    if |s| > 1 && AllIn(s, cls) {
      PlusOneIsRun(cls, s[1..]);
      assert Matches(One(cls), s[..1]);
    }
  }

  /** `cls*` matches exactly the runs of `cls`, the empty one included. */
  lemma {:induction false} StarOneIsRun(cls: CharClass, s: string)
    ensures Matches(Star(One(cls)), s) <==> AllIn(s, cls)
    decreases |s|
  {
    if Matches(Star(One(cls)), s) && s != [] {
      var k :| 0 < k <= |s| && Matches(One(cls), s[..k]) && Matches(Star(One(cls)), s[k..]);
      StarOneIsRun(cls, s[k..]);
      assert s == s[..k] + s[k..];
    }
    if |s| > 0 && AllIn(s, cls) {
      StarOneIsRun(cls, s[1..]);
      assert Matches(One(cls), s[..1]);
    }
  }

  /** A split point is a witness for a concatenation. */
  lemma ConcatAt(first: Regex, rest: Regex, s: string, k: nat)
    requires k <= |s| && Matches(first, s[..k]) && Matches(rest, s[k..])
    ensures Matches(Concat(first, rest), s)
  {
  }
}
