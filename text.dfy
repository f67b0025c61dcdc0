/** Case folding of hardware addresses. */
module Text {

  /** An ASCII capital letter. */
  predicate IsUpperAscii(c: char)
  {
    'A' <= c <= 'Z'
  }

  /** Lower-case one character; only the ASCII letters A-Z change. */
  function LowerChar(c: char): char
  {
    if IsUpperAscii(c) then (c as int + 32) as char else c
  }

  /** The address with every letter lower-cased, as `toLowerCase` does for ASCII text. */
  function Lower(s: string): (r: string)
    ensures |r| == |s|
    ensures forall i | 0 <= i < |s| :: r[i] == LowerChar(s[i])
  {
    if s == [] then [] else [LowerChar(s[0])] + Lower(s[1..])
  }

  /** A lower-cased address has no upper-case letter left. */
  lemma LowerHasNoUpper(s: string)
    ensures forall i | 0 <= i < |Lower(s)| :: !IsUpperAscii(Lower(s)[i])
  {
  }

  /** Lower-casing twice is lower-casing once, so a stored lower-cased address is a fixed point. */
  lemma LowerIdempotent(s: string)
    ensures Lower(Lower(s)) == Lower(s)
  {
    var once := Lower(s);
    assert forall i | 0 <= i < |s| :: Lower(once)[i] == LowerChar(LowerChar(s[i])) == once[i];
  }

  /** Two addresses that differ only in letter case lower-case to the same text. */
  lemma LowerIgnoresCase(a: string, b: string)
    requires |a| == |b|
    requires forall i | 0 <= i < |a| :: LowerChar(a[i]) == LowerChar(b[i])
    ensures Lower(a) == Lower(b)
  {
  }
}
