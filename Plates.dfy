/** The plate grammar `car_plate_regex` of the `Registration` model, read as the list of
    approved plate formats, and what follows from it. */
module Plates {
  import opened Text
  import opened Regex
  import opened Schema

  /** Plates compare without regard to case (the `CICharField` column). */
  predicate SamePlate(a: string, b: string)
  {
    Upper(a) == Upper(b)
  }

  /** The kind of a character in a format: 'A' for a letter, '9' for a digit. */
  function Kind(c: char): char
  {
    if IsLetter(c) then 'A' else if IsDigit(c) then '9' else '?'
  }

  /** The format of a plate, e.g. "AB123" has shape "AA999". */
  function Shape(s: string): (r: string)
    ensures |r| == |s|
  {
    seq(|s|, i requires 0 <= i < |s| => Kind(s[i]))
  }

  predicate StartsWithOneOf(s: string, chars: string) { |s| > 0 && s[0] in chars }

  predicate EndsWith(s: string, c: char) { |s| > 0 && s[|s| - 1] == c }

  /** The approved formats, one line per alternative of the pattern. */
  predicate IsPlate(s: string)
  {
    var sh := Shape(s);
    || sh == "AA999" || sh == "AAA999"
    || sh == "AA99"
    || sh == "999AA"
    || sh == "99AAA"
    || sh == "9AAAA" || sh == "9AAAAA"
    || sh == "9999A" || sh == "9999AA"
    || (sh == "A99999" && StartsWithOneOf(s, "THP"))
    || sh == "99999" || sh == "999999"
    || (sh == "9999A" && EndsWith(s, 'H'))
    || (sh == "A9999" && StartsWithOneOf(s, "P"))
    || (sh == "AA9999" && StartsWithOneOf(s, "E"))
  }

  function Rep(c: char, n: nat): (r: string)
    ensures |r| == n && forall i :: 0 <= i < n ==> r[i] == c
  {
    if n == 0 then [] else [c] + Rep(c, n - 1)
  }

  function Code(cls: CharClass): char
  {
    if cls == Letter then 'A' else '9'
  }

  lemma RunShape(t: string, cls: CharClass)
    requires cls == Letter || cls == Digit
    ensures AllIn(t, cls) <==> Shape(t) == Rep(Code(cls), |t|)
  {
    if Shape(t) == Rep(Code(cls), |t|) {
      forall i | 0 <= i < |t| ensures InClass(t[i], cls) {
        assert Shape(t)[i] == Code(cls);
      }
    }
  }

  lemma ShapeSplit(s: string, k: nat)
    requires k <= |s|
    ensures Shape(s) == Shape(s[..k]) + Shape(s[k..])
  {
  }

  /** Runs of two classes, split at `k`, as a shape. */
  lemma RunsAt(c1: CharClass, c2: CharClass, s: string, k: nat)
    requires c1 == Letter || c1 == Digit
    requires c2 == Letter || c2 == Digit
    requires k <= |s|
    ensures (AllIn(s[..k], c1) && AllIn(s[k..], c2)) <==> Shape(s) == Rep(Code(c1), k) + Rep(Code(c2), |s| - k)
  {
    RunShape(s[..k], c1);
    RunShape(s[k..], c2);
    ShapeSplit(s, k);
    var a, b := Rep(Code(c1), k), Rep(Code(c2), |s| - k);
    if Shape(s) == a + b {
      assert Shape(s[..k]) == Shape(s)[..k] == (a + b)[..k] == a;
      assert Shape(s[k..]) == Shape(s)[k..] == (a + b)[k..] == b;
    }
  }

  /** The split point of a string matched by two runs. */
  lemma RunsOfMatch(c1: CharClass, lo1: nat, hi1: nat, c2: CharClass, lo2: nat, hi2: nat, s: string) returns (k: nat)
    requires c1 == Letter || c1 == Digit
    requires c2 == Letter || c2 == Digit
    requires Matches(Concat(Repeat(c1, lo1, hi1), Repeat(c2, lo2, hi2)), s)
    ensures lo1 <= k <= hi1 && lo2 <= |s| - k <= hi2
    ensures Shape(s) == Rep(Code(c1), k) + Rep(Code(c2), |s| - k)
  {
    k :| 0 <= k <= |s| && Matches(Repeat(c1, lo1, hi1), s[..k]) && Matches(Repeat(c2, lo2, hi2), s[k..]);
    RunsAt(c1, c2, s, k);
  }

  /** A string of the right shape is matched by two runs. */
  lemma MatchOfRuns(c1: CharClass, lo1: nat, hi1: nat, c2: CharClass, lo2: nat, hi2: nat, s: string, k: nat)
    requires c1 == Letter || c1 == Digit
    requires c2 == Letter || c2 == Digit
    requires lo1 <= k <= hi1 && lo2 <= |s| - k <= hi2
    requires Shape(s) == Rep(Code(c1), k) + Rep(Code(c2), |s| - k)
    ensures Matches(Concat(Repeat(c1, lo1, hi1), Repeat(c2, lo2, hi2)), s)
  {
    RunsAt(c1, c2, s, k);
    assert Matches(Repeat(c1, lo1, hi1), s[..k]) && Matches(Repeat(c2, lo2, hi2), s[k..]);
  }

  lemma Alt0(s: string)
    ensures Matches(PlateAlternatives()[0], s) <==> Shape(s) == "AA999" || Shape(s) == "AAA999"
  {
    assert Rep('A', 2) + Rep('9', 3) == "AA999";
    assert Rep('A', 3) + Rep('9', 3) == "AAA999";
    if Matches(PlateAlternatives()[0], s) {
      var k := RunsOfMatch(Letter, 2, 3, Digit, 3, 3, s);
    }
    if Shape(s) == "AA999" {
      MatchOfRuns(Letter, 2, 3, Digit, 3, 3, s, 2);
    }
    if Shape(s) == "AAA999" {
      MatchOfRuns(Letter, 2, 3, Digit, 3, 3, s, 3);
    }
  }

  lemma Alt1(s: string)
    ensures Matches(PlateAlternatives()[1], s) <==> Shape(s) == "AA99"
  {
    assert Rep('A', 2) + Rep('9', 2) == "AA99";
    if Matches(PlateAlternatives()[1], s) {
      var k := RunsOfMatch(Letter, 2, 2, Digit, 2, 2, s);
    }
    if Shape(s) == "AA99" {
      MatchOfRuns(Letter, 2, 2, Digit, 2, 2, s, 2);
    }
  }

  lemma Alt2(s: string)
    ensures Matches(PlateAlternatives()[2], s) <==> Shape(s) == "999AA"
  {
    assert Rep('9', 3) + Rep('A', 2) == "999AA";
    if Matches(PlateAlternatives()[2], s) {
      var k := RunsOfMatch(Digit, 3, 3, Letter, 2, 2, s);
    }
    if Shape(s) == "999AA" {
      MatchOfRuns(Digit, 3, 3, Letter, 2, 2, s, 3);
    }
  }

  lemma Alt3(s: string)
    ensures Matches(PlateAlternatives()[3], s) <==> Shape(s) == "99AAA"
  {
    assert Rep('9', 2) + Rep('A', 3) == "99AAA";
    if Matches(PlateAlternatives()[3], s) {
      var k := RunsOfMatch(Digit, 2, 2, Letter, 3, 3, s);
    }
    if Shape(s) == "99AAA" {
      MatchOfRuns(Digit, 2, 2, Letter, 3, 3, s, 2);
    }
  }

  lemma Alt4(s: string)
    ensures Matches(PlateAlternatives()[4], s) <==> Shape(s) == "9AAAA" || Shape(s) == "9AAAAA"
  {
    assert Rep('9', 1) + Rep('A', 4) == "9AAAA";
    assert Rep('9', 1) + Rep('A', 5) == "9AAAAA";
    if Matches(PlateAlternatives()[4], s) {
      var k := RunsOfMatch(Digit, 1, 1, Letter, 4, 5, s);
    }
    if Shape(s) == "9AAAA" || Shape(s) == "9AAAAA" {
      MatchOfRuns(Digit, 1, 1, Letter, 4, 5, s, 1);
    }
  }

  lemma Alt5(s: string)
    ensures Matches(PlateAlternatives()[5], s) <==> Shape(s) == "9999A" || Shape(s) == "9999AA"
  {
    assert Rep('9', 4) + Rep('A', 1) == "9999A";
    assert Rep('9', 4) + Rep('A', 2) == "9999AA";
    if Matches(PlateAlternatives()[5], s) {
      var k := RunsOfMatch(Digit, 4, 4, Letter, 1, 2, s);
    }
    if Shape(s) == "9999A" || Shape(s) == "9999AA" {
      MatchOfRuns(Digit, 4, 4, Letter, 1, 2, s, 4);
    }
  }

  /** `[cs]` followed by `n` digits, where `cs` holds capital letters only. */
  lemma LetterThenDigits(cs: string, n: nat, s: string)
    requires forall c :: c in cs ==> IsLetter(c)
    ensures Matches(Concat(One(OneOf(cs)), Repeat(Digit, n, n)), s) <==>
            Shape(s) == Rep('A', 1) + Rep('9', n) && StartsWithOneOf(s, cs)
  {
    if |s| >= 1 {
      RunsAt(Letter, Digit, s, 1);
      if Shape(s) == Rep('A', 1) + Rep('9', n) && StartsWithOneOf(s, cs) {
        assert Matches(One(OneOf(cs)), s[..1]) && Matches(Repeat(Digit, n, n), s[1..]);
      }
    } else {
      assert Shape(s) != Rep('A', 1) + Rep('9', n);
    }
  }

  lemma Alt6(s: string)
    ensures Matches(PlateAlternatives()[6], s) <==> Shape(s) == "A99999" && StartsWithOneOf(s, "THP")
  {
    assert Rep('A', 1) + Rep('9', 5) == "A99999";
    LetterThenDigits("THP", 5, s);
  }

  lemma Alt7(s: string)
    ensures Matches(PlateAlternatives()[7], s) <==> Shape(s) == "99999" || Shape(s) == "999999"
  {
    assert Rep('9', 5) == "99999";
    assert Rep('9', 6) == "999999";
    RunShape(s, Digit);
  }

  lemma Alt8(s: string)
    ensures Matches(PlateAlternatives()[8], s) <==> Shape(s) == "9999A" && EndsWith(s, 'H')
  {
    assert Rep('9', 4) + Rep('A', 1) == "9999A";
    if Matches(PlateAlternatives()[8], s) {
      Alt8Shape(s);
    }
    if Shape(s) == "9999A" && EndsWith(s, 'H') {
      RunsAt(Digit, Letter, s, 4);
      assert Matches(Repeat(Digit, 4, 4), s[..4]) && Matches(One(OneOf("H")), s[4..]);
    }
  }

  lemma Alt8Shape(s: string)
    requires Matches(PlateAlternatives()[8], s)
    ensures Shape(s) == "9999A" && EndsWith(s, 'H')
  {
    var k :| 0 <= k <= |s| && Matches(Repeat(Digit, 4, 4), s[..k]) && Matches(One(OneOf("H")), s[k..]);
    assert AllIn(s[k..], Letter);
    RunsAt(Digit, Letter, s, 4);
    assert Rep('9', 4) + Rep('A', 1) == "9999A";
  }

  lemma Alt9(s: string)
    ensures Matches(PlateAlternatives()[9], s) <==> Shape(s) == "A9999" && StartsWithOneOf(s, "P")
  {
    assert Rep('A', 1) + Rep('9', 4) == "A9999";
    LetterThenDigits("P", 4, s);
  }

  lemma Alt10(s: string)
    ensures Matches(PlateAlternatives()[10], s) <==> Shape(s) == "AA9999" && StartsWithOneOf(s, "E")
  {
    if Matches(PlateAlternatives()[10], s) {
      Alt10Shape(s);
    }
    if Shape(s) == "AA9999" && StartsWithOneOf(s, "E") {
      Alt10Match(s);
    }
  }

  lemma Alt10Shape(s: string)
    requires Matches(PlateAlternatives()[10], s)
    ensures Shape(s) == "AA9999" && StartsWithOneOf(s, "E")
  {
    var tail := Concat(One(Letter), Repeat(Digit, 4, 4));
    var k :| 0 <= k <= |s| && Matches(One(OneOf("E")), s[..k]) && Matches(tail, s[k..]);
    assert k == 1;
    var j := RunsOfMatch(Letter, 1, 1, Digit, 4, 4, s[1..]);
    assert AllIn(s[1..][..1], Letter) && AllIn(s[1..][1..], Digit) by {
      RunsAt(Letter, Digit, s[1..], 1);
    }
    assert AllIn(s[..2], Letter);
    assert s[1..][1..] == s[2..];
    RunsAt(Letter, Digit, s, 2);
    assert Rep('A', 2) + Rep('9', 4) == "AA9999";
  }

  lemma Alt10Match(s: string)
    requires Shape(s) == "AA9999" && StartsWithOneOf(s, "E")
    ensures Matches(PlateAlternatives()[10], s)
  {
    assert Rep('A', 2) + Rep('9', 4) == "AA9999";
    var tail := Concat(One(Letter), Repeat(Digit, 4, 4));
    RunsAt(Letter, Digit, s, 2);
    assert s[1..][..1] == s[1..2] && s[1..][1..] == s[2..];
    MatchOfRuns(Letter, 1, 1, Digit, 4, 4, s[1..], 1) by {
      RunsAt(Letter, Digit, s[1..], 1);
    }
    assert Matches(One(OneOf("E")), s[..1]) && Matches(tail, s[1..]);
  }

  /** The approved formats are exactly the strings the plate pattern matches. */
  lemma PlatePatternIsShape(s: string)
    ensures Matches(PlatePattern(), s) <==> IsPlate(s)
  {
    Alt0(s); Alt1(s); Alt2(s); Alt3(s); Alt4(s); Alt5(s);
    Alt6(s); Alt7(s); Alt8(s); Alt9(s); Alt10(s);
    var alts := PlateAlternatives();
    if Matches(PlatePattern(), s) {
      var i :| 0 <= i < |alts| && Matches(alts[i], s);
      assert i in {0, 1, 2, 3, 4, 5, 6, 7, 8, 9, 10};
    }
    if IsPlate(s) {
      var i :| i in {0, 1, 2, 3, 4, 5, 6, 7, 8, 9, 10} && Matches(alts[i], s);
    }
  }

  /** Every plate the pattern accepts fits the column: between 4 and `max_length` = 6 characters. */
  lemma PlateLength(s: string)
    requires Matches(PlatePattern(), s)
    ensures 4 <= |s| <= PlateMaxLength
  {
    PlatePatternIsShape(s);
  }

  lemma UpperKeepsShape(s: string)
    ensures Shape(Upper(s)) == Shape(s)
  {
    forall i | 0 <= i < |s| ensures Shape(Upper(s))[i] == Shape(s)[i] {
      SameLetterKeepsClasses(s[i], Upper(s)[i]);
    }
  }

  /** Upper-casing, as `save()` does, never turns a valid plate into an invalid one:
      the letters the pattern names (`T`, `H`, `P`, `E`) are capitals already. */
  lemma UpperKeepsPlate(s: string)
    requires Matches(PlatePattern(), s)
    ensures Matches(PlatePattern(), Upper(s))
  {
    PlatePatternIsShape(s);
    PlatePatternIsShape(Upper(s));
    UpperKeepsShape(s);
    if |s| > 0 {
      assert s[0] in "THPE" ==> Upper(s)[0] == s[0];
      assert s[|s| - 1] == 'H' ==> Upper(s)[|s| - 1] == 'H';
    }
  }

  /** The alternative `\d{4}H` adds nothing: `\d{4}[a-zA-Z]{1,2}` already accepts it. */
  lemma FourDigitsHIsRedundant(s: string)
    requires Matches(PlateAlternatives()[8], s)
    ensures Matches(PlateAlternatives()[5], s)
  {
    Alt8(s);
    Alt5(s);
  }

  /** Plates from the tests: "ABC123" and "XY123" are accepted. */
  lemma AcceptedExamples()
    ensures IsPlate("ABC123") && IsPlate("XY123")
  {
    assert Shape("ABC123") == "AAA999";
    assert Shape("XY123") == "AA999";
  }

  /** "AB" from the tests is refused, and so is a word. */
  lemma RefusedExamples()
    ensures !IsPlate("AB") && !IsPlate("OnlyOneWord")
  {
    assert |Shape("AB")| == 2;
    assert |Shape("OnlyOneWord")| == 11;
  }

  /** The letters the pattern names are matched case-sensitively: `[THP]` takes "T", not "t".
      (Saving upper-cases the plate, but the form checks it as typed.) */
  lemma CaseSensitiveExamples()
    ensures IsPlate("T12345") && !IsPlate("t12345")
  {
    assert Shape("T12345") == "A99999";
    assert Shape("t12345") == "A99999";
  }
}
