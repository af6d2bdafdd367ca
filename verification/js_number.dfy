/**
 * The part of JavaScript number semantics the route handlers lean on: the
 * `clamp` helper built from `Math.min`/`Math.max` (which propagate NaN), and
 * the index arithmetic of `Array.prototype.slice` (section 23.1.3.28 of
 * ECMA-262), which truncates its arguments and reads NaN as 0.
 */
module JsNumber {
  import opened Wrappers
  import opened Text

  /** A JavaScript number as `Number(...)` produces it. */
  datatype JsNum = NaN | PosInf | NegInf | Finite(x: real)

  function Abs(x: real): real {
    if x < 0.0 then -x else x
  }

  /** `Math.min(Math.max(n, lo), hi)`. */
  function Clamp(n: JsNum, lo: real, hi: real): (r: JsNum)
    requires lo <= hi
    ensures r.NaN? <==> n.NaN?
    ensures !r.NaN? ==> r.Finite? && lo <= r.x <= hi
    ensures n.Finite? && lo <= n.x <= hi ==> r == n
  {
    match n
    case NaN => NaN
    case PosInf => Finite(hi)
    case NegInf => Finite(lo)
    case Finite(x) => Finite(if x < lo then lo else if x > hi then hi else x)
  }

  /** A clamped finite number is the point of `[lo, hi]` nearest to it. */
  lemma ClampNearest(x: real, lo: real, hi: real, y: real)
    requires lo <= hi && lo <= y <= hi
    ensures Abs(Clamp(Finite(x), lo, hi).x - x) <= Abs(y - x)
  {
  }

  /** Clamping twice is clamping once. */
  lemma ClampIdempotent(n: JsNum, lo: real, hi: real)
    requires lo <= hi
    ensures Clamp(Clamp(n, lo, hi), lo, hi) == Clamp(n, lo, hi)
  {
  }

  /** Clamping keeps the order of numbers. */
  lemma ClampMonotone(x: real, y: real, lo: real, hi: real)
    requires lo <= hi && x <= y
    ensures Clamp(Finite(x), lo, hi).x <= Clamp(Finite(y), lo, hi).x
  {
  }

  /** Unary minus. */
  function Negate(n: JsNum): (r: JsNum)
    ensures r.NaN? <==> n.NaN?
    ensures r.Finite? <==> n.Finite?
    ensures n.Finite? ==> r.x == -n.x
  {
    match n
    case NaN => NaN
    case PosInf => NegInf
    case NegInf => PosInf
    case Finite(x) => Finite(-x)
  }

  /** Negating twice gives the number back. */
  lemma NegateInvolutive(n: JsNum)
    ensures Negate(Negate(n)) == n
  {
  }

  /** `Math.floor` of a finite number. */
  function FloorOf(x: real): (r: int)
    ensures r as real <= x < r as real + 1.0
  {
    x.Floor
  }

  /** Rounding toward zero, as `ToIntegerOrInfinity` does for finite values. */
  function Trunc(x: real): (r: int)
    ensures x >= 0.0 ==> r == FloorOf(x)
    ensures x < 0.0 ==> r == -FloorOf(-x)
    ensures Abs(r as real) <= Abs(x) < Abs(r as real) + 1.0
  {
    if x >= 0.0 then x.Floor else -((-x).Floor)
  }

  /**
   * Where a `slice` argument points into a sequence of length `len`: NaN
   * counts as 0, a negative value counts from the end, and the result is
   * kept inside `[0, len]`.
   */
  function RelativeIndex(n: JsNum, len: nat): (r: nat)
    ensures r <= len
    ensures n.Finite? && 0.0 <= n.x <= len as real ==> r == FloorOf(n.x)
    ensures n.Finite? && Trunc(n.x) < 0 && len + Trunc(n.x) >= 0 ==> r == len + Trunc(n.x)
    ensures n.Finite? && len + Trunc(n.x) < 0 ==> r == 0
    ensures n.NaN? || n.NegInf? ==> r == 0
    ensures n.PosInf? ==> r == len
    ensures n.Finite? && n.x > len as real ==> r == len
    ensures n.Finite? && -1.0 < n.x < 0.0 ==> r == 0
  {
    match n
    case NaN => 0
    case NegInf => 0
    case PosInf => len
    case Finite(x) =>
      var k := Trunc(x);
      if k < 0 then (if len + k < 0 then 0 else len + k)
      else if k > len then len
      else k
  }

  /** `s.slice(start, end)`, with `None` for an omitted end. */
  function Slice<T>(s: seq<T>, start: JsNum, end: Option<JsNum>): (r: seq<T>)
    ensures |r| <= |s|
    ensures var from := RelativeIndex(start, |s|);
      var to := if end.None? then |s| else RelativeIndex(end.value, |s|);
      if from < to then r == s[from..to] else r == []
  {
    var from := RelativeIndex(start, |s|);
    var to := if end.None? then |s| else RelativeIndex(end.value, |s|);
    if from < to then s[from..to] else []
  }

  /**
   * `s.slice(0, limit)` for a limit clamped to `[lo, hi]` with `lo >= 1`:
   * the first `floor(limit)` elements, or none at all when the limit is NaN.
   */
  lemma SliceHead<T>(s: seq<T>, n: JsNum, lo: nat, hi: nat)
    requires 1 <= lo <= hi
    ensures var c := Clamp(n, lo as real, hi as real);
      Slice(s, Finite(0.0), Some(c)) ==
        if c.NaN? then [] else s[..Min(FloorOf(c.x), |s|)]
  {
  }

  /**
   * `s.slice(-n)` for a count clamped to `[lo, hi]` with `lo >= 1`: the last
   * `floor(n)` elements, or all of them when the count is NaN.
   */
  lemma SliceTail<T>(s: seq<T>, n: JsNum, lo: nat, hi: nat)
    requires 1 <= lo <= hi
    ensures var c := Clamp(n, lo as real, hi as real);
      Slice(s, Negate(c), None) ==
        if c.NaN? then s else s[|s| - Min(FloorOf(c.x), |s|)..]
  {
  }

  /**
   * `String(n)`: `NaN`, the two infinities, and the plain decimal digits of
   * a whole number below 10^21 in magnitude (section 6.1.6.1.20 of
   * ECMA-262); the other finite values, which need a fraction or an
   * exponent, go through `numText`.
   */
  function ToText(n: JsNum, numText: real -> string): (r: string)
    ensures n.NaN? ==> r == "NaN"
    ensures n.PosInf? ==> r == "Infinity"
    ensures n.NegInf? ==> r == "-Infinity"
    ensures n.Finite? && n.x == n.x.Floor as real && 0.0 <= n.x < 1000000000000000000000.0 ==>
      (forall i :: 0 <= i < |r| ==> IsDigit(r[i])) && ParseDigits(r) == n.x.Floor
    ensures n.Finite? && n.x == n.x.Floor as real && -1000000000000000000000.0 < n.x < 0.0 ==>
      |r| >= 2 && r[0] == '-' && (forall i :: 1 <= i < |r| ==> IsDigit(r[i])) && ParseDigits(r[1..]) == -n.x.Floor
  {
    match n
    case NaN => "NaN"
    case PosInf => "Infinity"
    case NegInf => "-Infinity"
    case Finite(x) =>
      if x == x.Floor as real && Abs(x) < 1000000000000000000000.0 then
        ParseNatToString(if x >= 0.0 then x.Floor else -x.Floor);
        IntToString(x.Floor)
      else numText(x)
  }

  function Min(a: int, b: int): int {
    if a < b then a else b
  }
}
