/**
 * The pieces of Python's string semantics that the JSON date branch relies on:
 * slicing with negative and out-of-range bounds, and `s.split(sep)[0]`.
 */
module PyText {

  /** Python's rule for turning a slice bound into a position in `0..n`:
      a negative bound counts from the end, and the result is clamped. */
  function SliceBound(i: int, n: nat): (k: nat)
    ensures k <= n
    ensures 0 <= i <= n ==> k == i
    ensures i < 0 && 0 <= n + i ==> k == n + i
    ensures n + i < 0 ==> k == 0
    ensures n < i ==> k == n
  {
    if i < 0 then (if i + n < 0 then 0 else i + n)
    else if i > n then n
    else i
  }

  /** `s[:j]` */
  function SliceTo(s: string, j: int): (r: string)
    ensures r <= s
    ensures |r| == SliceBound(j, |s|)
  {
    s[..SliceBound(j, |s|)]
  }

  /** `s[i:]` */
  function SliceFrom(s: string, i: int): (r: string)
    ensures |r| == |s| - SliceBound(i, |s|)
    ensures s == s[..SliceBound(i, |s|)] + r
  {
    s[SliceBound(i, |s|)..]
  }

  /** `s.split(sep)[0]`: the longest prefix of `s` free of `sep`
      (the whole string when `sep` does not occur; Python never returns an
      empty list from `split` with an explicit separator). */
  function SplitFirst(s: string, sep: char): (r: string)
    ensures r <= s
    ensures sep !in r
    ensures r == s || s[|r|] == sep
  {
    if s == [] then []
    else if s[0] == sep then []
    else [s[0]] + SplitFirst(s[1..], sep)
  }

  /** When the separator first occurs right after `a`, the first piece is `a`. */
  lemma {:induction false} SplitFirstAt(a: string, b: string, sep: char)
    requires sep !in a
    requires b != [] && b[0] == sep
    ensures SplitFirst(a + b, sep) == a
  {
    if a != [] {
      assert (a + b)[1..] == a[1..] + b;
      SplitFirstAt(a[1..], b, sep);
    } else {
      assert a + b == b;
    }
  }

  /** Without the separator, the first piece is the whole string. */
  lemma {:induction false} SplitFirstAbsent(s: string, sep: char)
    requires sep !in s
    ensures SplitFirst(s, sep) == s
  {
    if s != [] {
      SplitFirstAbsent(s[1..], sep);
    }
  }
}
