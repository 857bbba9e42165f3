/** Python's basic slicing `s[start:stop]` (step 1), which numpy follows for
    the first axis of an array. A missing bound is written None. */
module PySlice {
  import opened Signals

  /** Adjusts one slice bound against a sequence of length `n`: a negative
      bound counts from the end, then the bound is clamped into [0, n]. */
  function Bound(i: int, n: nat): (r: nat)
    ensures r <= n
    ensures 0 <= i <= n ==> r == i
    ensures -(n as int) <= i < 0 ==> r == n + i
    ensures i > n ==> r == n
    ensures i < -(n as int) ==> r == 0
  {
    if i < 0 then
      if i + n < 0 then 0 else i + n
    else if i >= n then n
    else i
  }

  /** `s[start:stop]`; an empty slice when the adjusted start is not below the adjusted stop. */
  function Slice<T>(s: seq<T>, start: Option<int>, stop: Option<int>): (r: seq<T>)
    ensures |r| <= |s|
    ensures start.None? && stop.None? ==> r == s
  {
    var lo := if start.None? then 0 else Bound(start.value, |s|);
    var hi := if stop.None? then |s| else Bound(stop.value, |s|);
    if lo < hi then s[lo..hi] else []
  }

  /** `s[-m:]`: the last `m` items, all of `s` when it is shorter; and, since
      `-0 == 0`, all of `s` when `m` is 0. */
  lemma SliceFromEnd<T>(s: seq<T>, m: nat)
    ensures m > 0 ==> Slice(s, Some(-(m as int)), None) == s[|s| - Min(m, |s|)..]
    ensures m == 0 ==> Slice(s, Some(-(m as int)), None) == s
  {
  }

  /** `s[:n]`: the first `n` items, all of `s` when it is shorter. */
  lemma SliceToPrefix<T>(s: seq<T>, n: nat)
    ensures Slice(s, None, Some(n)) == s[..Min(n, |s|)]
  {
  }
}
