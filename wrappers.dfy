/** Shared helper datatypes. */
module Wrappers {

  /** A value that may be absent: JavaScript's `undefined`/`null`, Python's `None`. */
  datatype Option<+T> = None | Some(value: T)

  /** The integers `lo, lo + 1, ..., hi - 1`, in ascending order. */
  function Range(lo: int, hi: int): (r: seq<int>)
    ensures |r| == if lo <= hi then hi - lo else 0
    ensures forall k :: 0 <= k < |r| ==> r[k] == lo + k
    decreases hi - lo
  {
    if lo >= hi then [] else [lo] + Range(lo + 1, hi)
  }

  /** A count clamped at zero: a loop `for (i = 0; i < n; i++)` runs
      `Max0(n)` times. */
  function Max0(n: int): nat
  {
    if n < 0 then 0 else n
  }
}
