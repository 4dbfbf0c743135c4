/** Exact decimal arithmetic in the manner of `java.math.BigDecimal`.
    A value is an unscaled integer and a scale; its number is
    `unscaled / 10^scale`. Structural equality of the datatype is
    `BigDecimal.equals` (so 4 and 4.00 differ), while `Value` gives the
    number the decimal denotes (so 4 and 4.00 have the same value). */
module Decimals {

  datatype Decimal = Decimal(unscaled: int, scale: nat)

  /** `BigDecimal.ZERO`: unscaled 0, scale 0. */
  const Zero: Decimal := Decimal(0, 0)

  function Max(a: nat, b: nat): nat { if a < b then b else a }

  function Pow10(n: nat): (r: nat)
    ensures r >= 1
  {
    if n == 0 then 1 else 10 * Pow10(n - 1)
  }

  lemma {:induction false} Pow10Add(a: nat, b: nat)
    ensures Pow10(a + b) == Pow10(a) * Pow10(b)
  {
    if b > 0 {
      Pow10Add(a, b - 1);
      calc {
        Pow10(a + b);
        10 * Pow10(a + b - 1);
        10 * (Pow10(a) * Pow10(b - 1));
        Pow10(a) * (10 * Pow10(b - 1));
        Pow10(a) * Pow10(b);
      }
    }
  }

  /** The number a decimal denotes. */
  ghost function Value(d: Decimal): real
  {
    d.unscaled as real / Pow10(d.scale) as real
  }

  /** `BigDecimal.equals`: the same unscaled value and the same scale.
      It coincides with equality of the datatype. */
  function DecimalEquals(a: Decimal, b: Decimal): (r: bool)
    ensures r <==> a == b
  {
    a.unscaled == b.unscaled && a.scale == b.scale
  }

  /** `BigDecimal.equals` is stricter than numeric equality: equal
      decimals denote the same number, but 4 and 4.00 denote the same
      number and are not equal. */
  lemma EqualsIsStricterThanValue(a: Decimal, b: Decimal)
    ensures DecimalEquals(a, b) ==> Value(a) == Value(b)
    ensures Value(Decimal(4, 0)) == Value(Decimal(400, 2)) && !DecimalEquals(Decimal(4, 0), Decimal(400, 2))
  {
    assert Pow10(2) == 100 by {
      assert Pow10(1) == 10;
    }
  }

  // Facts of real arithmetic over plain variables. The proofs below
  // instantiate them with powers of ten, so that the solver never has to
  // unfold `Pow10` and reason about division in the same query.

  lemma RealOfProduct(x: int, y: int)
    ensures (x * y) as real == x as real * y as real
  {
  }

  lemma QuotientCompare(x: real, y: real, p: real)
    requires p > 0.0
    ensures (y / p == x <==> y == x * p)
  {
  }

  lemma RescaleCore(u: int, ps: nat, pk: nat, psk: nat)
    requires ps >= 1 && pk >= 1 && psk == ps * pk
    ensures (u * pk) as real / psk as real == u as real / ps as real
  {
    RealOfProduct(u, pk);
    RealOfProduct(ps, pk);
  }

  lemma MulCore(ua: int, ub: int, pa: nat, pb: nat, pab: nat)
    requires pa >= 1 && pb >= 1 && pab == pa * pb
    ensures (ua * ub) as real / pab as real == (ua as real / pa as real) * (ub as real / pb as real)
  {
    RealOfProduct(ua, ub);
    RealOfProduct(pa, pb);
  }

  lemma HalfUnitsCore(u: int, pn: nat, p: nat, ps: nat)
    requires pn >= 1 && p >= 1 && ps == pn * p
    ensures 2.0 * (u as real / ps as real) * pn as real == (2 * u) as real / p as real
  {
    RealOfProduct(pn, p);
  }

  lemma BoundsCore(lo: int, hi: int, x: int, p: nat)
    requires p >= 1
    ensures lo * p <= x ==> lo as real <= x as real / p as real
    ensures lo * p < x ==> lo as real < x as real / p as real
    ensures x < hi * p ==> x as real / p as real < hi as real
    ensures x <= hi * p ==> x as real / p as real <= hi as real
  {
    RealOfProduct(lo, p);
    RealOfProduct(hi, p);
  }

  lemma QuotientOfSum(x: int, y: int, p: nat)
    requires p >= 1
    ensures (x + y) as real / p as real == x as real / p as real + y as real / p as real
  {
  }

  lemma HalfUnitsExact(k: int, pn: nat)
    requires pn >= 1
    ensures 2.0 * (k as real / pn as real) * pn as real == (2 * k) as real
  {
  }

  lemma SignCore(u: int, p: nat)
    requires p >= 1
    ensures (u as real / p as real >= 0.0) <==> u >= 0
  {
  }

  /** Multiplying the unscaled value by 10^k and adding k to the scale
      leaves the number unchanged. */
  lemma Rescale(u: int, s: nat, k: nat)
    ensures Value(Decimal(u * Pow10(k), s + k)) == Value(Decimal(u, s))
  {
    Pow10Add(s, k);
    RescaleCore(u, Pow10(s), Pow10(k), Pow10(s + k));
  }

  /** Two decimals of the same scale that denote the same number are the
      same decimal. */
  lemma SameScaleSameValue(a: Decimal, b: Decimal)
    requires a.scale == b.scale && Value(a) == Value(b)
    ensures a == b
  {
    var p := Pow10(a.scale) as real;
    QuotientCompare(Value(a), a.unscaled as real, p);
    QuotientCompare(Value(b), b.unscaled as real, p);
  }

  /** `BigDecimal.add`: exact, with the larger of the two scales. */
  function Add(a: Decimal, b: Decimal): (r: Decimal)
    ensures r.scale == Max(a.scale, b.scale)
    ensures Value(r) == Value(a) + Value(b)
  {
    var s := Max(a.scale, b.scale);
    AddValue(a, b);
    Decimal(a.unscaled * Pow10(s - a.scale) + b.unscaled * Pow10(s - b.scale), s)
  }

  lemma AddValue(a: Decimal, b: Decimal)
    ensures var s := Max(a.scale, b.scale);
      Value(Decimal(a.unscaled * Pow10(s - a.scale) + b.unscaled * Pow10(s - b.scale), s)) == Value(a) + Value(b)
  {
    var s := Max(a.scale, b.scale);
    Rescale(a.unscaled, a.scale, s - a.scale);
    Rescale(b.unscaled, b.scale, s - b.scale);
    QuotientOfSum(a.unscaled * Pow10(s - a.scale), b.unscaled * Pow10(s - b.scale), Pow10(s));
  }

  /** `BigDecimal.multiply`: exact, with the sum of the two scales. */
  function Mul(a: Decimal, b: Decimal): (r: Decimal)
    ensures r.scale == a.scale + b.scale
    ensures Value(r) == Value(a) * Value(b)
  {
    MulValue(a, b);
    Decimal(a.unscaled * b.unscaled, a.scale + b.scale)
  }

  lemma MulValue(a: Decimal, b: Decimal)
    ensures Value(Decimal(a.unscaled * b.unscaled, a.scale + b.scale)) == Value(a) * Value(b)
  {
    Pow10Add(a.scale, b.scale);
    MulCore(a.unscaled, b.unscaled, Pow10(a.scale), Pow10(b.scale), Pow10(a.scale + b.scale));
  }

  lemma {:induction false} AddCommutes(a: Decimal, b: Decimal)
    ensures Add(a, b) == Add(b, a)
  {
    SameScaleSameValue(Add(a, b), Add(b, a));
  }

  lemma {:induction false} AddAssociates(a: Decimal, b: Decimal, c: Decimal)
    ensures Add(Add(a, b), c) == Add(a, Add(b, c))
  {
    SameScaleSameValue(Add(Add(a, b), c), Add(a, Add(b, c)));
  }

  /** `BigDecimal.ZERO` is a two-sided identity of `add`, structurally. */
  lemma {:induction false} ZeroIsAddIdentity(d: Decimal)
    ensures Add(Zero, d) == d && Add(d, Zero) == d
  {
    SameScaleSameValue(Add(Zero, d), d);
    SameScaleSameValue(Add(d, Zero), d);
  }

  /** Multiplying by a sum gives the very same decimal (same unscaled
      value and scale) as adding the two products. */
  lemma {:induction false} MulDistributesOverAdd(p: Decimal, q1: Decimal, q2: Decimal)
    ensures Mul(p, Add(q1, q2)) == Add(Mul(p, q1), Mul(p, q2))
  {
    assert Value(p) * (Value(q1) + Value(q2)) == Value(p) * Value(q1) + Value(p) * Value(q2);
    SameScaleSameValue(Mul(p, Add(q1, q2)), Add(Mul(p, q1), Mul(p, q2)));
  }

  /** `k / 10^n` is the ROUND_HALF_UP rounding of `v` to `n` decimal
      places: it lies within half a unit of the last place of `v`, and a
      value exactly half-way between two neighbours goes to the one
      farther from zero. Measured in half-units, `2 * v * 10^n` must lie in
      `[2k - 1, 2k + 1)` for a non-negative `v` and in `(2k - 1, 2k + 1]`
      for a negative one. */
  ghost predicate RoundsHalfUp(v: real, k: int, n: nat)
  {
    var t := 2.0 * v * Pow10(n) as real;
    if v >= 0.0 then (2 * k - 1) as real <= t < (2 * k + 1) as real
    else (2 * k - 1) as real < t <= (2 * k + 1) as real
  }

  /** At most one unscaled value is the half-up rounding of a number. */
  lemma RoundsHalfUpUnique(v: real, k1: int, k2: int, n: nat)
    requires RoundsHalfUp(v, k1, n) && RoundsHalfUp(v, k2, n)
    ensures k1 == k2
  {
  }

  lemma NearestBounds(m: int, p: int, q: int, r: int, j: int)
    requires p >= 1 && m == q * p + r && 0 <= r < p
    requires j == if 2 * r >= p then q + 1 else q
    ensures (2 * j - 1) * p <= 2 * m < (2 * j + 1) * p
  {
    assert (2 * j - 1) * p == 2 * (j * p) - p;
    assert (2 * j + 1) * p == 2 * (j * p) + p;
    if 2 * r >= p {
      assert j * p == q * p + p;
    }
  }

  lemma NegatedBounds(m: int, u: int, p: int, j: int)
    requires u == -m && (2 * j - 1) * p <= 2 * m < (2 * j + 1) * p
    ensures (2 * -j - 1) * p < 2 * u <= (2 * -j + 1) * p
  {
    assert (2 * -j - 1) * p == -((2 * j + 1) * p);
    assert (2 * -j + 1) * p == -((2 * j - 1) * p);
  }

  /** Integer division of `u` by `p`, rounding the quotient half-up:
      to the nearest integer, and away from zero when `u / p` lies exactly
      half-way between two integers. */
  function DivHalfUp(u: int, p: nat): (k: int)
    requires p >= 1
    ensures u >= 0 ==> (2 * k - 1) * p <= 2 * u < (2 * k + 1) * p
    ensures u < 0 ==> (2 * k - 1) * p < 2 * u <= (2 * k + 1) * p
  {
    var m := if u >= 0 then u else -u;
    var j := if 2 * (m % p) >= p then m / p + 1 else m / p;
    NearestBounds(m, p, m / p, m % p, j);
    if u >= 0 then j else NegatedBounds(m, u, p, j); -j
  }

  /** The integer bounds of `DivHalfUp`, read on the real quotient. */
  lemma DivHalfUpBounds(u: int, p: nat, t: real)
    requires p >= 1 && t == (2 * u) as real / p as real
    ensures var k := DivHalfUp(u, p);
      && (u >= 0 ==> (2 * k - 1) as real <= t < (2 * k + 1) as real)
      && (u < 0 ==> (2 * k - 1) as real < t <= (2 * k + 1) as real)
  {
    var k := DivHalfUp(u, p);
    BoundsCore(2 * k - 1, 2 * k + 1, 2 * u, p);
  }

  /** `BigDecimal.setScale(n, ROUND_HALF_UP)`. Raising the scale is exact;
      lowering it divides the unscaled value by a power of ten and rounds
      the quotient half-up, so ties move away from zero. */
  function SetScaleHalfUp(d: Decimal, n: nat): (r: Decimal)
    ensures r.scale == n
    ensures RoundsHalfUp(Value(d), r.unscaled, n)
  {
    if d.scale <= n then
      RaiseScaleRounds(d, n);
      Decimal(d.unscaled * Pow10(n - d.scale), n)
    else
      var k := DivHalfUp(d.unscaled, Pow10(d.scale - n));
      LowerScaleRounds(d, n);
      Decimal(k, n)
  }

  lemma RaiseScaleRounds(d: Decimal, n: nat)
    requires d.scale <= n
    ensures RoundsHalfUp(Value(d), d.unscaled * Pow10(n - d.scale), n)
  {
    var j := n - d.scale;
    var k := d.unscaled * Pow10(j);
    Rescale(d.unscaled, d.scale, j);
    assert Decimal(k, d.scale + j) == Decimal(k, n);
    HalfUnitsExact(k, Pow10(n));
    ExactRounds(Value(d), k, n);
  }

  /** A number that is exactly `k` units of the last place rounds to `k`. */
  lemma ExactRounds(v: real, k: int, n: nat)
    requires 2.0 * v * Pow10(n) as real == (2 * k) as real
    ensures RoundsHalfUp(v, k, n)
  {
  }

  lemma LowerScaleRounds(d: Decimal, n: nat)
    requires d.scale > n
    ensures RoundsHalfUp(Value(d), DivHalfUp(d.unscaled, Pow10(d.scale - n)), n)
  {
    var p := Pow10(d.scale - n);
    LowerScaleHalfUnits(d, n);
    SignCore(d.unscaled, Pow10(d.scale));
    DivHalfUpBounds(d.unscaled, p, 2.0 * Value(d) * Pow10(n) as real);
  }

  lemma LowerScaleHalfUnits(d: Decimal, n: nat)
    requires d.scale > n
    ensures 2.0 * Value(d) * Pow10(n) as real == (2 * d.unscaled) as real / Pow10(d.scale - n) as real
  {
    Pow10Add(n, d.scale - n);
    HalfUnitsCore(d.unscaled, Pow10(n), Pow10(d.scale - n), Pow10(d.scale));
  }

  /** Half-up rounding looks only at the number, not at how it is written:
      decimals of equal value round to the same decimal. */
  lemma {:induction false} SetScaleDependsOnlyOnValue(a: Decimal, b: Decimal, n: nat)
    requires Value(a) == Value(b)
    ensures SetScaleHalfUp(a, n) == SetScaleHalfUp(b, n)
  {
    RoundsHalfUpUnique(Value(a), SetScaleHalfUp(a, n).unscaled, SetScaleHalfUp(b, n).unscaled, n);
  }

  /** Rounding a decimal that already has at most `n` places changes only
      its scale, never its number. */
  lemma {:induction false} SetScaleIsExactWhenRaising(d: Decimal, n: nat)
    requires d.scale <= n
    ensures Value(SetScaleHalfUp(d, n)) == Value(d)
  {
    Rescale(d.unscaled, d.scale, n - d.scale);
  }
}
