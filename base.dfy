/** Small building blocks shared by every other module: an optional value,
    the maximum of two integers, powers of two and the position of the
    first success in a run of outcomes. */
module Base {

  /** A value that may be absent; `None` stands for JavaScript's `null`
      (and, where noted, `undefined`). */
  datatype Option<+T> = None | Some(value: T)

  function Max(a: int, b: int): int
  {
    if a >= b then a else b
  }

  /** `Math.pow(2, n)` for a non-negative integer exponent. */
  function Pow2(n: nat): (r: nat)
    ensures r >= 1
  {
    if n == 0 then 1 else 2 * Pow2(n - 1)
  }

  /** The position of the first `true` in `v`, or `|v|` when there is none:
      the first failing check, the first accepted post, the first resolved
      call. */
  function FirstIndex(v: seq<bool>): (k: nat)
    ensures k <= |v|
    ensures forall j :: 0 <= j < k ==> !v[j]
    ensures k < |v| ==> v[k]
  {
    if v == [] then 0
    else if v[0] then 0
    else 1 + FirstIndex(v[1..])
  }
}
