/** The few JavaScript semantics the museum proxy relies on: optional values,
    truthiness of strings, the `||` default, `Array.prototype.slice` with its
    index clamping, and `Math.ceil` of a quotient of non-negative integers. */
module Js {

  /** A value that may be missing (`undefined` or `null` in the source). */
  datatype Option<+T> = None | Some(value: T)

  function Min(a: int, b: int): int { if a <= b then a else b }

  function Max(a: int, b: int): int { if a <= b then b else a }

  /** JavaScript truthiness of an optional string: present and not empty. */
  predicate Truthy(v: Option<string>) { v.Some? && v.value != "" }

  /** `v || fallback` for an optional string. The result is empty only when
      the fallback is, so a non-empty placeholder always shows. */
  function OrElse(v: Option<string>, fallback: string): (r: string)
    ensures Truthy(v) ==> r == v.value
    ensures !Truthy(v) ==> r == fallback
    ensures r == "" <==> !Truthy(v) && fallback == ""
  {
    if Truthy(v) then v.value else fallback
  }

  /** How `slice` turns one of its arguments into a position of a sequence of
      length `len`: a negative argument counts from the end, and the result is
      clamped to `0..len`. */
  function RelativeIndex(i: int, len: nat): (r: nat)
    ensures r <= len
    ensures 0 <= i ==> r == Min(i, len)
    ensures i < 0 ==> r == Max(len + i, 0)
  {
    if i < 0 then (if len + i < 0 then 0 else len + i)
    else if i > len then len
    else i
  }

  /** `s.slice(start, end)`. */
  function Slice<T>(s: seq<T>, start: int, end: int): (r: seq<T>)
    ensures |r| <= |s|
    ensures 0 <= start <= end ==> r == s[Min(start, |s|)..Min(end, |s|)]
    ensures 0 <= start <= end ==> |r| <= end - start
  {
    var b := RelativeIndex(start, |s|);
    var e := RelativeIndex(end, |s|);
    if b < e then s[b..e] else []
  }

  /** `Math.ceil(n / k)` for a count `n` and a positive divisor `k`: the least
      number of blocks of size `k` that cover `n` items (see CeilDivBounds). */
  function CeilDiv(n: nat, k: nat): (r: nat)
    requires k > 0
    ensures n == 0 <==> r == 0
  {
    QuotientBounds(n, k);
    (n + k - 1) / k
  }

  /** `CeilDiv(n, k)` blocks cover the `n` items, and one block fewer does
      not. */
  lemma CeilDivBounds(n: nat, k: nat)
    requires k > 0
    ensures CeilDiv(n, k) * k >= n
    ensures CeilDiv(n, k) > 0 ==> (CeilDiv(n, k) - 1) * k < n
  {
    QuotientBounds(n, k);
  }

  lemma QuotientBounds(n: nat, k: nat)
    requires k > 0
    ensures ((n + k - 1) / k) * k >= n
    ensures (n + k - 1) / k > 0 ==> ((n + k - 1) / k - 1) * k < n
    ensures n == 0 <==> (n + k - 1) / k == 0
  {
    var q, m := (n + k - 1) / k, (n + k - 1) % k;
    assert q * k + m == n + k - 1;
    assert q * k >= n;
    if q > 0 {
      assert (q - 1) * k == q * k - k;
    }
  }

  /** Multiplying by a positive factor keeps the order. */
  lemma MulMonotone(a: int, b: int, k: nat)
    requires a <= b
    ensures a * k <= b * k
  {
    assert b * k - a * k == (b - a) * k;
  }
}
