/** Small definitions shared by the modules of the storefront model. */
module Common {

  /** A value that may be absent: JavaScript's `T | undefined` and `T | null`. */
  datatype Option<T> = None | Some(value: T)

  /** `x` limited to the interval `lo .. hi`. */
  function Clamp(x: int, lo: int, hi: int): (c: int)
    requires lo <= hi
    ensures lo <= c <= hi
    ensures lo <= x <= hi ==> c == x
  {
    if x < lo then lo else if x > hi then hi else x
  }

  /** The number of `true` entries of `bs`. */
  function CountTrue(bs: seq<bool>): (n: nat)
    ensures n <= |bs|
  {
    if bs == [] then 0 else (if bs[0] then 1 else 0) + CountTrue(bs[1..])
  }

  /** A row of `n` slots in which slot `i` (0-based) is set exactly when `i < r`. */
  function Threshold(n: nat, r: int): (bs: seq<bool>)
    ensures |bs| == n
  {
    seq(n, i => i < r)
  }

  /** A threshold row sets exactly `r` of its `n` slots, cut off at `0` and `n`. */
  lemma {:induction false} ThresholdCount(n: nat, r: int)
    ensures CountTrue(Threshold(n, r)) == Clamp(r, 0, n)
  {
    if n > 0 {
      assert Threshold(n, r)[1..] == Threshold(n - 1, r - 1);
      ThresholdCount(n - 1, r - 1);
    }
  }
}
