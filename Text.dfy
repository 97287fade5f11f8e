/** The character classes and the two string methods the application relies on:
    `str.upper()` and `str.title()`, restricted to ASCII. */
module Text {

  /** `[a-zA-Z]` */
  predicate IsLetter(c: char) { 'a' <= c <= 'z' || 'A' <= c <= 'Z' }

  predicate IsLowerLetter(c: char) { 'a' <= c <= 'z' }

  /** `\d` */
  predicate IsDigit(c: char) { '0' <= c <= '9' }

  /** `\w`: letters, digits and the underscore. */
  predicate IsWordChar(c: char) { IsLetter(c) || IsDigit(c) || c == '_' }

  /** `\s`: space, tab, line feed, vertical tab, form feed, carriage return. */
  predicate IsSpace(c: char) { c == ' ' || '\t' <= c <= '\r' }

  /** The same letter, up to case, or the same character. Between ASCII letters a
      distance of 32 only separates a capital from its lower-case form. */
  predicate SameLetter(c: char, d: char)
  {
    c == d || (IsLetter(c) && IsLetter(d) && (c as int - d as int == 32 || d as int - c as int == 32))
  }

  /** The capital of a lower-case letter; any other character as it is. */
  function UpperChar(c: char): (u: char)
    ensures SameLetter(c, u) && !IsLowerLetter(u)
  {
    if IsLowerLetter(c) then (c as int - 32) as char else c
  }

  /** The lower-case form of a capital; any other character as it is. */
  function LowerChar(c: char): (l: char)
    ensures SameLetter(c, l) && (IsLetter(c) ==> IsLowerLetter(l))
  {
    if 'A' <= c <= 'Z' then (c as int + 32) as char else c
  }

  /** Same letters keep every character class the patterns use. */
  lemma SameLetterKeepsClasses(c: char, d: char)
    requires SameLetter(c, d)
    ensures IsLetter(c) == IsLetter(d) && IsDigit(c) == IsDigit(d)
    ensures IsWordChar(c) == IsWordChar(d) && IsSpace(c) == IsSpace(d)
  {
  }

  /** Two characters have the same capital exactly when they are the same letter. */
  lemma UpperCharEqual(c: char, d: char)
    ensures UpperChar(c) == UpperChar(d) <==> SameLetter(c, d)
  {
  }

  /** `s.upper()`: every letter becomes its own capital, every other character stays. */
  function Upper(s: string): (r: string)
    ensures |r| == |s|
    ensures forall i :: 0 <= i < |s| ==> SameLetter(s[i], r[i]) && !IsLowerLetter(r[i])
  {
    seq(|s|, i requires 0 <= i < |s| => UpperChar(s[i]))
  }

  /** Comparing upper-cased texts is comparing them letter by letter, ignoring case. */
  lemma UpperEqual(a: string, b: string)
    ensures Upper(a) == Upper(b) <==> |a| == |b| && forall i :: 0 <= i < |a| ==> SameLetter(a[i], b[i])
  {
    if |a| == |b| {
      forall i | 0 <= i < |a| ensures Upper(a)[i] == Upper(b)[i] <==> SameLetter(a[i], b[i]) {
        UpperCharEqual(a[i], b[i]);
      }
      if forall i :: 0 <= i < |a| ==> SameLetter(a[i], b[i]) {
        assert forall i :: 0 <= i < |a| ==> Upper(a)[i] == Upper(b)[i];
      }
    }
  }

  /** The character `s.title()` puts at position `i`: a letter is capitalised when the
      character before it is not a letter (a "cased" character) and lowered otherwise. */
  function TitleAt(s: string, i: nat): char
    requires i < |s|
  {
    if !IsLetter(s[i]) then s[i]
    else if i > 0 && IsLetter(s[i - 1]) then LowerChar(s[i])
    else UpperChar(s[i])
  }

  /** `s.title()`: every letter stays the same letter, as a capital where it starts a
      run of letters and in lower case inside one; other characters stay. */
  function Title(s: string): (r: string)
    ensures |r| == |s|
    ensures forall i :: 0 <= i < |s| ==> SameLetter(s[i], r[i])
    ensures forall i :: 0 <= i < |s| && IsLetter(s[i]) ==>
              (IsLowerLetter(r[i]) <==> i > 0 && IsLetter(s[i - 1]))
  {
    seq(|s|, i requires 0 <= i < |s| => TitleAt(s, i))
  }

  /** Title-casing sees letters up to case only. */
  lemma TitleOfSameLetters(a: string, b: string)
    requires |a| == |b| && forall i :: 0 <= i < |a| ==> SameLetter(a[i], b[i])
    ensures Title(a) == Title(b)
  {
    forall i | 0 <= i < |a| ensures Title(a)[i] == Title(b)[i] {
      if i > 0 {
        SameLetterKeepsClasses(a[i - 1], b[i - 1]);
      }
    }
  }

  /** Upper-casing twice is upper-casing once. */
  lemma UpperIdempotent(s: string)
    ensures Upper(Upper(s)) == Upper(s)
  {
  }

  /** Title-casing twice is title-casing once: the letters and non-letters stay where
      they were, so every position takes the same decision the second time. */
  lemma TitleIdempotent(s: string)
    ensures Title(Title(s)) == Title(s)
  {
    var t := Title(s);
    forall i | 0 <= i < |s|
      ensures Title(t)[i] == t[i]
    {
      if IsLetter(s[i]) {
        if i > 0 && IsLetter(s[i - 1]) {
          assert IsLetter(t[i - 1]);
        }
      }
    }
  }
}
