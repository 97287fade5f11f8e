/** The "at least two words" grammar shared by `owner` and `car_model`, read without
    regular-expression machinery, and what follows from it. */
module Names {
  import opened Text
  import opened Regex
  import opened Schema

  /** Every character is a word or whitespace character, the first is a word character,
      and some whitespace character is followed, later on, by a word character. */
  predicate IsTwoWords(s: string)
  {
    && |s| > 0 && IsWordChar(s[0])
    && (forall i :: 0 <= i < |s| ==> IsWordChar(s[i]) || IsSpace(s[i]))
    && exists i, j :: 0 <= i < j < |s| && IsSpace(s[i]) && IsWordChar(s[j])
  }

  /** A word followed by optional whitespace: `\w+\s*`. */
  function Chunk(): Regex { Concat(Plus(One(Word)), Star(One(Space))) }

  /** Strings that start with a word character and hold only word and whitespace characters. */
  predicate StartsWithWord(t: string)
  {
    |t| > 0 && IsWordChar(t[0]) && forall i :: 0 <= i < |t| ==> IsWordChar(t[i]) || IsSpace(t[i])
  }

  /** The end of the run of `cls` that starts at `from`. */
  function Span(s: string, from: nat, cls: CharClass): (j: nat)
    requires from <= |s|
    ensures from <= j <= |s| && AllIn(s[from..j], cls)
    ensures j < |s| ==> !InClass(s[j], cls)
    decreases |s| - from
  {
    if from == |s| || !InClass(s[from], cls) then from
    else
      var j := Span(s, from + 1, cls);
      assert forall i :: 0 <= i < j - from ==> s[from..j][i] == s[from + i];
      j
  }

  lemma ChunkAt(t: string, p: nat)
    requires 0 < p <= |t| && AllIn(t[..p], Word) && AllIn(t[p..], Space)
    ensures Matches(Chunk(), t)
  {
    PlusOneIsRun(Word, t[..p]);
    StarOneIsRun(Space, t[p..]);
  }

  /** `(\w+\s*)+` matches exactly the strings that start with a word character and hold
      only word and whitespace characters. */
  lemma {:induction false} ChunksAreWordsAndSpaces(t: string)
    ensures Matches(Plus(Chunk()), t) <==> StartsWithWord(t)
    decreases |t|
  {
    if Matches(Plus(Chunk()), t) {
      if Matches(Chunk(), t) {
        var p :| 0 <= p <= |t| && Matches(Plus(One(Word)), t[..p]) && Matches(Star(One(Space)), t[p..]);
        PlusOneIsRun(Word, t[..p]);
        StarOneIsRun(Space, t[p..]);
        assert t[0] == t[..p][0];
        forall i | 0 <= i < |t| ensures IsWordChar(t[i]) || IsSpace(t[i]) {
          if i < p { assert t[i] == t[..p][i]; } else { assert t[i] == t[p..][i - p]; }
        }
      } else {
        var k :| 0 < k < |t| && Matches(Chunk(), t[..k]) && Matches(Plus(Chunk()), t[k..]);
        ChunksAreWordsAndSpaces(t[..k]);
        ChunksAreWordsAndSpaces(t[k..]);
        assert Matches(Plus(Chunk()), t[..k]);
        assert t[0] == t[..k][0];
        forall i | 0 <= i < |t| ensures IsWordChar(t[i]) || IsSpace(t[i]) {
          if i < k { assert t[i] == t[..k][i]; } else { assert t[i] == t[k..][i - k]; }
        }
      }
    }
    if StartsWithWord(t) {
      var p := Span(t, 0, Word);
      var q := Span(t, p, Space);
      assert p > 0;
      if q == |t| {
        ChunkAt(t, p);
      } else {
        assert q > 0;
        assert t[..q][..p] == t[..p] && t[..q][p..] == t[p..q];
        ChunkAt(t[..q], p);
        assert StartsWithWord(t[q..]) by {
          assert t[q..][0] == t[q];
          forall i | 0 <= i < |t| - q ensures IsWordChar(t[q..][i]) || IsSpace(t[q..][i]) {
            assert t[q..][i] == t[q + i];
          }
        }
        ChunksAreWordsAndSpaces(t[q..]);
      }
    }
  }

  /** `\s+(\w+\s*)+` */
  function Rest(): Regex { Concat(Plus(One(Space)), Plus(Chunk())) }

  lemma RestOfMatch(t: string) returns (k: nat)
    requires Matches(Rest(), t)
    ensures 0 < k < |t| && AllIn(t[..k], Space) && StartsWithWord(t[k..])
  {
    k :| 0 <= k <= |t| && Matches(Plus(One(Space)), t[..k]) && Matches(Plus(Chunk()), t[k..]);
    PlusOneIsRun(Space, t[..k]);
    ChunksAreWordsAndSpaces(t[k..]);
  }

  lemma TwoWordsOfMatch(s: string)
    requires Matches(TwoWordPattern(), s)
    ensures IsTwoWords(s)
  {
    var k1 :| 0 <= k1 <= |s| && Matches(Plus(One(Word)), s[..k1]) && Matches(Rest(), s[k1..]);
    PlusOneIsRun(Word, s[..k1]);
    var t := s[k1..];
    var k2 := RestOfMatch(t);
    assert s[0] == s[..k1][0];
    assert IsSpace(s[k1]) by { assert s[k1] == t[..k2][0]; }
    assert IsWordChar(s[k1 + k2]) by { assert s[k1 + k2] == t[k2..][0]; }
    forall i | 0 <= i < |s| ensures IsWordChar(s[i]) || IsSpace(s[i]) {
      if i < k1 { assert s[i] == s[..k1][i]; }
      else if i < k1 + k2 { assert s[i] == t[..k2][i - k1]; }
      else { assert s[i] == t[k2..][i - k1 - k2]; }
    }
  }

  lemma RestAt(t: string, k: nat)
    requires 0 < k < |t| && AllIn(t[..k], Space) && StartsWithWord(t[k..])
    ensures Matches(Rest(), t)
  {
    PlusOneIsRun(Space, t[..k]);
    ChunksAreWordsAndSpaces(t[k..]);
  }

  /** Where the first word of a name ends (`p`) and where the spaces after it end (`q`). */
  lemma FirstWordEnd(s: string) returns (p: nat, q: nat)
    requires IsTwoWords(s)
    ensures 0 < p < q < |s| && AllIn(s[..p], Word) && AllIn(s[p..q], Space)
    ensures StartsWithWord(s[q..])
  {
    var i, j :| 0 <= i < j < |s| && IsSpace(s[i]) && IsWordChar(s[j]);
    p := Span(s, 0, Word);
    assert p <= i;
    q := Span(s, p, Space);
    assert q <= j;
    assert s[q..][0] == s[q];
    forall m | 0 <= m < |s| - q ensures IsWordChar(s[q..][m]) || IsSpace(s[q..][m]) {
      assert s[q..][m] == s[q + m];
    }
  }

  lemma MatchOfTwoWords(s: string)
    requires IsTwoWords(s)
    ensures Matches(TwoWordPattern(), s)
  {
    var p, q := FirstWordEnd(s);
    var t := s[p..];
    assert t[..q - p] == s[p..q] && t[q - p..] == s[q..];
    RestAt(t, q - p);
    PlusOneIsRun(Word, s[..p]);
    ConcatAt(Plus(One(Word)), Rest(), s, p);
  }

  /** The pattern `^\w+\s+(\w+\s*)+$` accepts exactly the strings `IsTwoWords` describes:
      leading whitespace is refused, trailing whitespace is accepted. */
  lemma TwoWordPatternIsShape(s: string)
    ensures Matches(TwoWordPattern(), s) <==> IsTwoWords(s)
  {
    if Matches(TwoWordPattern(), s) { TwoWordsOfMatch(s); }
    if IsTwoWords(s) { MatchOfTwoWords(s); }
  }

  /** Changing the case of letters keeps a name in the grammar. */
  lemma SameLettersKeepTwoWords(s: string, r: string)
    requires |r| == |s| && forall i :: 0 <= i < |s| ==> SameLetter(s[i], r[i])
    requires IsTwoWords(s)
    ensures IsTwoWords(r)
  {
    var i, j :| 0 <= i < j < |s| && IsSpace(s[i]) && IsWordChar(s[j]);
    forall m | 0 <= m < |s| ensures IsWordChar(r[m]) == IsWordChar(s[m]) && IsSpace(r[m]) == IsSpace(s[m]) {
      SameLetterKeepsClasses(s[m], r[m]);
    }
  }

  /** Upper-casing keeps a name in the grammar. */
  lemma UpperKeepsTwoWords(s: string)
    requires Matches(TwoWordPattern(), s)
    ensures Matches(TwoWordPattern(), Upper(s))
  {
    TwoWordPatternIsShape(s);
    SameLettersKeepTwoWords(s, Upper(s));
    TwoWordPatternIsShape(Upper(s));
  }

  /** Title-casing keeps a name in the grammar. */
  lemma TitleKeepsTwoWords(s: string)
    requires Matches(TwoWordPattern(), s)
    ensures Matches(TwoWordPattern(), Title(s))
  {
    TwoWordPatternIsShape(s);
    SameLettersKeepTwoWords(s, Title(s));
    TwoWordPatternIsShape(Title(s));
  }

  /** Names from the tests, as typed and as saving stores them, are accepted. */
  lemma AcceptedNames()
    ensures IsTwoWords("john doe") && IsTwoWords("Demo Car")
    ensures IsTwoWords("John Doe") && IsTwoWords("DEMO CAR")
  {
    assert IsSpace("john doe"[4]) && IsWordChar("john doe"[5]);
    assert IsSpace("Demo Car"[4]) && IsWordChar("Demo Car"[5]);
    assert IsSpace("John Doe"[4]) && IsWordChar("John Doe"[5]);
    assert IsSpace("DEMO CAR"[4]) && IsWordChar("DEMO CAR"[5]);
  }

  /** One-word names from the tests are refused. */
  lemma RefusedNames()
    ensures !IsTwoWords("JohnDoe") && !IsTwoWords("testmodel")
  {
  }

  /** Leading whitespace is refused and trailing whitespace accepted. */
  lemma WhitespaceExamples()
    ensures !IsTwoWords(" john doe") && IsTwoWords("john doe ")
  {
    assert IsSpace("john doe "[4]) && IsWordChar("john doe "[5]);
  }
}
