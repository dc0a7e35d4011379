/** `strings.TrimSpace`, restricted to ASCII white space. */
module Text {

  /** Tab, line feed, vertical tab, form feed, carriage return and space. */
  predicate IsSpace(c: char)
  {
    c == ' ' || '\t' <= c <= '\r'
  }

  /** Every character of `s` is white space. */
  predicate Blank(s: string)
  {
    forall i :: 0 <= i < |s| ==> IsSpace(s[i])
  }

  /** The first position at or after `from` that does not hold white space (or the end). */
  function SkipLeading(s: string, from: nat): (n: nat)
    requires from <= |s|
    ensures from <= n <= |s|
    ensures forall i :: from <= i < n ==> IsSpace(s[i])
    ensures n < |s| ==> !IsSpace(s[n])
    decreases |s| - from
  {
    if from < |s| && IsSpace(s[from]) then SkipLeading(s, from + 1) else from
  }

  /** The end of `s[lo..end]` once its trailing white space is dropped. */
  function SkipTrailing(s: string, lo: nat, end: nat): (m: nat)
    requires lo <= end <= |s|
    ensures lo <= m <= end
    ensures forall i :: m <= i < end ==> IsSpace(s[i])
    ensures m > lo ==> !IsSpace(s[m - 1])
    decreases end
  {
    if end > lo && IsSpace(s[end - 1]) then SkipTrailing(s, lo, end - 1) else end
  }

  /** `r` is `s` with the first `i` characters and everything after `i + |r|` removed, and only white space was removed. */
  predicate TrimmedAt(s: string, r: string, i: nat)
  {
    && i + |r| <= |s| && r == s[i..i + |r|]
    && (forall k :: 0 <= k < i ==> IsSpace(s[k]))
    && (forall k :: i + |r| <= k < |s| ==> IsSpace(s[k]))
  }

  /**
   * The text between the leading and the trailing white space. It is
   * empty exactly when the whole input is white space.
   */
  function TrimSpace(s: string): (r: string)
    ensures exists i :: TrimmedAt(s, r, i)
    ensures r != "" ==> !IsSpace(r[0]) && !IsSpace(r[|r| - 1])
    ensures r == "" <==> Blank(s)
  {
    var lo := SkipLeading(s, 0);
    var hi := SkipTrailing(s, lo, |s|);
    var r := s[lo..hi];
    assert TrimmedAt(s, r, lo);
    r
  }
}
