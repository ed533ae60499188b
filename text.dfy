/**
 * Python's `str.capitalize` restricted to ASCII letters: the first character is
 * upper-cased, every other character lower-cased, and non-letters are kept.
 */
module Text {

  predicate IsLower(c: char) { 'a' <= c <= 'z' }

  predicate IsUpper(c: char) { 'A' <= c <= 'Z' }

  /** Upper case of an ASCII letter; any other character is returned as it is. */
  function ToUpper(c: char): (u: char)
    ensures !IsLower(u)
    ensures IsLower(c) ==> IsUpper(u) && u as int + 32 == c as int
    ensures !IsLower(c) ==> u == c
  {
    if IsLower(c) then (c as int - 32) as char else c
  }

  /** Lower case of an ASCII letter; any other character is returned as it is. */
  function ToLower(c: char): (l: char)
    ensures !IsUpper(l)
    ensures IsUpper(c) ==> IsLower(l) && l as int == c as int + 32
    ensures !IsUpper(c) ==> l == c
  {
    if IsUpper(c) then (c as int + 32) as char else c
  }

  /** Every character of `s` lower-cased. */
  function LowerAll(s: string): (r: string)
    ensures |r| == |s|
    ensures forall i :: 0 <= i < |s| ==> r[i] == ToLower(s[i])
  {
    if s == [] then [] else [ToLower(s[0])] + LowerAll(s[1..])
  }

  /** `s` with its first character upper-cased and the rest lower-cased. */
  function Capitalize(s: string): (r: string)
    ensures |r| == |s|
    ensures |s| > 0 ==> r[0] == ToUpper(s[0])
    ensures forall i :: 0 < i < |s| ==> r[i] == ToLower(s[i])
  {
    if s == [] then [] else [ToUpper(s[0])] + LowerAll(s[1..])
  }

  /** A string that `Capitalize` leaves as it is: no lower-case first letter, no upper-case letter after it. */
  predicate IsCapitalized(s: string)
  {
    (|s| > 0 ==> !IsLower(s[0])) && forall i :: 0 < i < |s| ==> !IsUpper(s[i])
  }

  /** Changing the case of a letter and changing it back gives the letter again. */
  lemma CaseRoundTrip(c: char)
    ensures IsUpper(c) ==> ToUpper(ToLower(c)) == c
    ensures IsLower(c) ==> ToLower(ToUpper(c)) == c
  {
  }

  /** The output of `Capitalize` is always capitalized. */
  lemma CapitalizeIsCapitalized(s: string)
    ensures IsCapitalized(Capitalize(s))
  {
  }

  /** `Capitalize` leaves a string unchanged exactly when it is already capitalized. */
  lemma CapitalizeFixedPoint(s: string)
    ensures Capitalize(s) == s <==> IsCapitalized(s)
  {
    if IsCapitalized(s) {
      forall i | 0 <= i < |s|
        ensures Capitalize(s)[i] == s[i]
      {
      }
    }
  }

  /** Capitalizing twice gives the same string as capitalizing once. */
  lemma CapitalizeIdempotent(s: string)
    ensures Capitalize(Capitalize(s)) == Capitalize(s)
  {
    CapitalizeIsCapitalized(s);
    CapitalizeFixedPoint(Capitalize(s));
  }

  /** Two characters with the same lower case have the same upper case. */
  lemma SameLetterSameUpper(a: char, b: char)
    requires ToLower(a) == ToLower(b)
    ensures ToUpper(a) == ToUpper(b)
  {
  }

  /** Strings that differ only in the case of their letters capitalize to the same string. */
  lemma CapitalizeIgnoresCase(s: string, t: string)
    requires LowerAll(s) == LowerAll(t)
    ensures Capitalize(s) == Capitalize(t)
  {
    var n := |s|;
    assert |t| == n;
    forall i | 0 <= i < n
      ensures ToLower(s[i]) == ToLower(t[i])
    {
      assert LowerAll(s)[i] == LowerAll(t)[i];
    }
    if n > 0 {
      SameLetterSameUpper(s[0], t[0]);
      forall i | 0 <= i < n
        ensures Capitalize(s)[i] == Capitalize(t)[i]
      {
      }
    }
  }
}
