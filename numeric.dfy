/** Numeric helpers standing for the JavaScript operators the engine relies on.
    Numbers are modelled as exact reals: IEEE-754 rounding, NaN and the int32
    wrap-around of `~~` are not modelled. */
module Numeric {

  /** An optional argument: `None` is an argument the caller left out. */
  datatype Option<T> = None | Some(value: T)

  /** `~~r`: truncation toward zero (not floor). */
  function Trunc(r: real): (t: int)
    ensures 0.0 <= r ==> 0 <= t && t as real <= r < t as real + 1.0
    ensures r < 0.0 ==> t <= 0 && t as real - 1.0 < r <= t as real
  {
    if r >= 0.0 then r.Floor else -((-r).Floor)
  }

  /** `Math.ceil(r)`: the least integer not below `r`. */
  function Ceil(r: real): (c: int)
    ensures r <= c as real < r + 1.0
  {
    -((-r).Floor)
  }

  /** True when `r` has no fractional part. */
  predicate IsWhole(r: real) {
    r.Floor as real == r
  }

  /** `Math.min` */
  function Min(p: real, q: real): real {
    if p <= q then p else q
  }

  /** `Math.max` */
  function Max(p: real, q: real): real {
    if p >= q then p else q
  }

  /** `x < 0 ? -x : x` */
  function Abs(x: real): real {
    if x < 0.0 then -x else x
  }

  /** JavaScript `v || fallback` on a number: `0` is falsy, so it yields `fallback`. */
  function Or(v: real, fallback: real): real {
    if v != 0.0 then v else fallback
  }

  lemma FloorOfInt(k: int)
    ensures (k as real).Floor == k
  {
  }

  /** Sums, differences and negations of whole numbers are whole. */
  lemma WholeArithmetic(p: real, q: real)
    requires IsWhole(p) && IsWhole(q)
    ensures IsWhole(p - q) && IsWhole(p + q) && IsWhole(-p)
  {
    var m, n := p.Floor, q.Floor;
    assert p == m as real && q == n as real;
    assert p - q == (m - n) as real;
    assert p + q == (m + n) as real;
    assert -p == (-m) as real;
    FloorOfInt(m - n);
    FloorOfInt(m + n);
    FloorOfInt(-m);
  }

  lemma TruncOfWhole(r: real)
    requires IsWhole(r)
    ensures Trunc(r) as real == r
  {
    var n := r.Floor;
    if r < 0.0 {
      assert -r == (-n) as real;
      FloorOfInt(-n);
    }
  }

  lemma CeilOfWhole(r: real)
    requires IsWhole(r)
    ensures Ceil(r) as real == r
  {
    var n := r.Floor;
    assert -r == (-n) as real;
    assert (-r).Floor == -n;
  }
}
