/** Arbitrary-precision decimals in the style of `java.math.BigDecimal`: an
    unbounded unscaled integer and a scale, the value being
    `unscaled / 10^scale`. Only the operations and rounding modes the trading
    core uses are modelled. */
module Decimals {
  import opened Common

  function Pow10(n: nat): (r: int)
    ensures r >= 1
  {
    if n == 0 then 1 else 10 * Pow10(n - 1)
  }

  lemma {:induction false} Pow10Add(a: nat, b: nat)
    ensures Pow10(a + b) == Pow10(a) * Pow10(b)
  {
    if b > 0 {
      Pow10Add(a, b - 1);
      calc {
        Pow10(a + b);
        10 * Pow10(a + b - 1);
        10 * (Pow10(a) * Pow10(b - 1));
        Pow10(a) * (10 * Pow10(b - 1));
      }
    }
  }

  datatype Decimal = Decimal(unscaled: int, scale: nat)

  const Zero := Decimal(0, 0)
  const One := Decimal(1, 0)

  function Max(a: nat, b: nat): nat { if a < b then b else a }

  /** The unscaled value of `x` written at the (finer) scale `s`. */
  function Align(x: Decimal, s: nat): int
    requires x.scale <= s
  {
    x.unscaled * Pow10(s - x.scale)
  }

  /** `BigDecimal.compareTo`: values are compared, scales are ignored. */
  predicate Less(a: Decimal, b: Decimal)
  {
    var m := Max(a.scale, b.scale);
    Align(a, m) < Align(b, m)
  }

  predicate LessEq(a: Decimal, b: Decimal)
  {
    var m := Max(a.scale, b.scale);
    Align(a, m) <= Align(b, m)
  }

  predicate SameValue(a: Decimal, b: Decimal)
  {
    var m := Max(a.scale, b.scale);
    Align(a, m) == Align(b, m)
  }

  /** `BigDecimal.signum() == 0`. */
  predicate IsZero(x: Decimal) { x.unscaled == 0 }

  lemma MulLess(x: int, y: int, p: int)
    requires p > 0
    ensures x < y <==> x * p < y * p
    ensures x <= y <==> x * p <= y * p
  {
    if x < y { assert y * p - x * p == (y - x) * p; }
    if y < x { assert x * p - y * p == (x - y) * p; }
  }

  lemma AlignRescale(x: Decimal, s: nat, t: nat)
    requires x.scale <= s <= t
    ensures Align(x, t) == Align(x, s) * Pow10(t - s)
  {
    Pow10Add(s - x.scale, t - s);
    assert t - x.scale == (s - x.scale) + (t - s);
  }

  /** Comparisons may be carried out at any common scale that is fine enough. */
  lemma {:induction false} CompareAt(a: Decimal, b: Decimal, s: nat)
    requires a.scale <= s && b.scale <= s
    ensures Less(a, b) <==> Align(a, s) < Align(b, s)
    ensures LessEq(a, b) <==> Align(a, s) <= Align(b, s)
    ensures SameValue(a, b) <==> Align(a, s) == Align(b, s)
  {
    var m := Max(a.scale, b.scale);
    AlignRescale(a, m, s);
    AlignRescale(b, m, s);
    MulLess(Align(a, m), Align(b, m), Pow10(s - m));
  }

  lemma LessTransitive(a: Decimal, b: Decimal, c: Decimal)
    ensures LessEq(a, b) && Less(b, c) ==> Less(a, c)
    ensures Less(a, b) && LessEq(b, c) ==> Less(a, c)
  {
    var s := Max(a.scale, Max(b.scale, c.scale));
    CompareAt(a, b, s);
    CompareAt(b, c, s);
    CompareAt(a, c, s);
  }

  /** `BigDecimal.add`: exact, at the larger of the two scales. */
  function Add(a: Decimal, b: Decimal): (r: Decimal)
    ensures r.scale == Max(a.scale, b.scale)
    ensures forall s: nat {:trigger Align(r, s)} :: r.scale <= s ==> Align(r, s) == Align(a, s) + Align(b, s)
  {
    var m := Max(a.scale, b.scale);
    var r := Decimal(Align(a, m) + Align(b, m), m);
    forall s: nat | m <= s ensures Align(r, s) == Align(a, s) + Align(b, s) {
      AlignRescale(a, m, s);
      AlignRescale(b, m, s);
      AlignRescale(r, m, s);
      assert Align(r, m) == Align(a, m) + Align(b, m);
    }
    r
  }

  /** `BigDecimal.subtract`: exact, at the larger of the two scales. */
  function Subtract(a: Decimal, b: Decimal): (r: Decimal)
    ensures r.scale == Max(a.scale, b.scale)
    ensures forall s: nat {:trigger Align(r, s)} :: r.scale <= s ==> Align(r, s) == Align(a, s) - Align(b, s)
  {
    var m := Max(a.scale, b.scale);
    var r := Decimal(Align(a, m) - Align(b, m), m);
    forall s: nat | m <= s ensures Align(r, s) == Align(a, s) - Align(b, s) {
      AlignRescale(a, m, s);
      AlignRescale(b, m, s);
      AlignRescale(r, m, s);
      assert Align(r, m) == Align(a, m) - Align(b, m);
    }
    r
  }

  /** `BigDecimal.multiply`: exact, at the sum of the two scales. */
  function Multiply(a: Decimal, b: Decimal): Decimal
  {
    Decimal(a.unscaled * b.unscaled, a.scale + b.scale)
  }

  /** The rounding modes of `java.math.RoundingMode` that the core uses. */
  datatype RoundingMode = Ceiling | Floor | HalfUp

  lemma FloorDivBounds(n: int, d: int)
    requires d > 0
    ensures (n / d) * d <= n < (n / d) * d + d
  {
    var q, r := n / d, n % d;
    assert n == d * q + r && 0 <= r < d;
  }

  lemma CeilingBounds(n: int, d: int, q: int)
    requires d > 0 && q == -((-n) / d)
    ensures q * d - d < n <= q * d
  {
    var f := (-n) / d;
    FloorDivBounds(-n, d);
    assert q * d == -(f * d);
  }

  lemma HalfUpBounds(n: int, d: int, q: int)
    requires d > 0 && n >= 0 && q == (2 * n + d) / (2 * d)
    ensures -d <= 2 * (n - q * d) < d
    ensures 2 * (n - q * d) == -d ==> n > 0
  {
    FloorDivBounds(2 * n + d, 2 * d);
    assert q * (2 * d) == 2 * (q * d);
  }

  /** `n / d` rounded to an integer with `mode`, for a positive divisor. */
  function DivRoundPositive(n: int, d: int, mode: RoundingMode): (q: int)
    requires d > 0
    ensures mode == Floor ==> q * d <= n < q * d + d
    ensures mode == Ceiling ==> q * d - d < n <= q * d
    ensures mode == HalfUp ==> -d <= 2 * (n - q * d) <= d
    // a tie goes away from zero
    ensures mode == HalfUp && 2 * (n - q * d) == d ==> n < 0
    ensures mode == HalfUp && 2 * (n - q * d) == -d ==> n > 0
  {
    match mode
    case Floor =>
      FloorDivBounds(n, d);
      n / d
    case Ceiling =>
      var q := -((-n) / d);
      CeilingBounds(n, d, q);
      q
    case HalfUp =>
      if n >= 0 then
        var q := (2 * n + d) / (2 * d);
        HalfUpBounds(n, d, q);
        q
      else
        var p := (2 * (-n) + d) / (2 * d);
        HalfUpBounds(-n, d, p);
        assert (-p) * d == -(p * d);
        -p
  }

  /** `n / d` rounded to an integer with `mode`: the sign of the divisor is
      moved to the dividend, which leaves the quotient unchanged. */
  function DivRound(n: int, d: int, mode: RoundingMode): int
    requires d != 0
  {
    if d < 0 then DivRoundPositive(-n, -d, mode) else DivRoundPositive(n, d, mode)
  }

  lemma SetScaleDown(x: Decimal, s: nat, mode: RoundingMode, r: Decimal)
    requires s < x.scale
    requires r == Decimal(DivRoundPositive(x.unscaled, Pow10(x.scale - s), mode), s)
    ensures mode == Floor ==>
      r.unscaled * Pow10(x.scale - s) <= x.unscaled < (r.unscaled + 1) * Pow10(x.scale - s)
    ensures mode == Ceiling ==>
      (r.unscaled - 1) * Pow10(x.scale - s) < x.unscaled <= r.unscaled * Pow10(x.scale - s)
    ensures mode == HalfUp ==>
      -Pow10(x.scale - s) <= 2 * (x.unscaled - r.unscaled * Pow10(x.scale - s)) <= Pow10(x.scale - s)
    ensures mode == Ceiling ==> LessEq(x, r)
    ensures mode == Floor ==> LessEq(r, x)
  {
    var k := Pow10(x.scale - s);
    var q := r.unscaled;
    assert Align(r, x.scale) == q * k;
    assert Align(x, x.scale) == x.unscaled * Pow10(0);
    assert (q + 1) * k == q * k + k;
    assert (q - 1) * k == q * k - k;
  }

  /** `BigDecimal.setScale(s, mode)`: exact when the scale grows, rounded with
      `mode` at the last kept digit when it shrinks. */
  function SetScale(x: Decimal, s: nat, mode: RoundingMode): (r: Decimal)
    ensures r.scale == s
    ensures s >= x.scale ==> SameValue(r, x)
    ensures s < x.scale && mode == Floor ==>
      r.unscaled * Pow10(x.scale - s) <= x.unscaled < (r.unscaled + 1) * Pow10(x.scale - s)
    ensures s < x.scale && mode == Ceiling ==>
      (r.unscaled - 1) * Pow10(x.scale - s) < x.unscaled <= r.unscaled * Pow10(x.scale - s)
    ensures s < x.scale && mode == HalfUp ==>
      -Pow10(x.scale - s) <= 2 * (x.unscaled - r.unscaled * Pow10(x.scale - s)) <= Pow10(x.scale - s)
    ensures mode == Ceiling ==> LessEq(x, r)
    ensures mode == Floor ==> LessEq(r, x)
  {
    if s >= x.scale then
      var r := Decimal(Align(x, s), s);
      assert Align(r, s) == r.unscaled * Pow10(0);
      r
    else
      var r := Decimal(DivRoundPositive(x.unscaled, Pow10(x.scale - s), mode), s);
      SetScaleDown(x, s, mode, r);
      r
  }

  /** `a.divide(b, mode)`: the quotient at the scale of `a`, rounded with
      `mode`; `None` where `BigDecimal` throws `ArithmeticException` (a zero
      divisor). */
  function Divide(a: Decimal, b: Decimal, mode: RoundingMode): (r: Option<Decimal>)
    ensures r.None? <==> IsZero(b)
    ensures r.Some? ==> r.value.scale == a.scale
    // with a positive divisor, r * b lies within one rounding step of a
    ensures r.Some? && b.unscaled > 0 && mode == Floor ==>
      r.value.unscaled * b.unscaled <= a.unscaled * Pow10(b.scale) < r.value.unscaled * b.unscaled + b.unscaled
    ensures r.Some? && b.unscaled > 0 && mode == Ceiling ==>
      r.value.unscaled * b.unscaled - b.unscaled < a.unscaled * Pow10(b.scale) <= r.value.unscaled * b.unscaled
    ensures r.Some? && b.unscaled > 0 && mode == HalfUp ==>
      -b.unscaled <= 2 * (a.unscaled * Pow10(b.scale) - r.value.unscaled * b.unscaled) <= b.unscaled
    // a HALF_UP tie goes away from zero
    ensures (r.Some? && b.unscaled > 0 && mode == HalfUp &&
             2 * (a.unscaled * Pow10(b.scale) - r.value.unscaled * b.unscaled) == b.unscaled) ==> a.unscaled < 0
    ensures (r.Some? && b.unscaled > 0 && mode == HalfUp &&
             2 * (a.unscaled * Pow10(b.scale) - r.value.unscaled * b.unscaled) == -b.unscaled) ==> a.unscaled > 0
  {
    if IsZero(b) then None
    else
      Some(Decimal(DivRound(a.unscaled * Pow10(b.scale), b.unscaled, mode), a.scale))
  }

  /** Rounding up to scale `s` lands less than one unit of the last kept
      digit above `x`. */
  lemma CeilingWithinUnit(x: Decimal, s: nat, p: Decimal)
    requires p == SetScale(x, s, Ceiling)
    ensures Less(Subtract(p, Decimal(1, s)), x)
  {
    CeilingFacts(x, s, p);
    CeilingBelow(x, s, p);
  }

  /** Rounding down to scale `s` lands less than one unit of the last kept
      digit below `x`. */
  lemma FloorWithinUnit(x: Decimal, s: nat, p: Decimal)
    requires p == SetScale(x, s, Floor)
    ensures Less(x, Add(p, Decimal(1, s)))
  {
    FloorFacts(x, s, p);
    FloorAbove(x, s, p);
  }

  lemma CeilingFacts(x: Decimal, s: nat, p: Decimal)
    requires p == SetScale(x, s, Ceiling)
    ensures p.scale == s
    ensures s >= x.scale ==> Align(p, s) == Align(x, s)
    ensures s < x.scale ==> (p.unscaled - 1) * Pow10(x.scale - s) < x.unscaled
  {
    if s >= x.scale {
      assert SameValue(p, x);
    }
  }

  lemma FloorFacts(x: Decimal, s: nat, p: Decimal)
    requires p == SetScale(x, s, Floor)
    ensures p.scale == s
    ensures s >= x.scale ==> Align(p, s) == Align(x, s)
    ensures s < x.scale ==> x.unscaled < (p.unscaled + 1) * Pow10(x.scale - s)
  {
    if s >= x.scale {
      assert SameValue(p, x);
    }
  }

  lemma CeilingBelow(x: Decimal, s: nat, p: Decimal)
    requires p.scale == s
    requires s >= x.scale ==> Align(p, s) == Align(x, s)
    requires s < x.scale ==> (p.unscaled - 1) * Pow10(x.scale - s) < x.unscaled
    ensures Less(Subtract(p, Decimal(1, s)), x)
  {
    var u := Decimal(1, s);
    var d := Subtract(p, u);
    var m := Max(s, x.scale);
    var k := Pow10(m - s);
    assert Align(d, m) == Align(p, m) - Align(u, m);
    assert Align(p, m) == p.unscaled * k;
    assert Align(u, m) == 1 * k;
    if s >= x.scale {
      assert Pow10(0) == 1;
    } else {
      assert Pow10(0) == 1;
      assert Align(x, m) == x.unscaled * Pow10(0);
      CeilingStep(p.unscaled, k, x.unscaled);
    }
  }

  lemma FloorAbove(x: Decimal, s: nat, p: Decimal)
    requires p.scale == s
    requires s >= x.scale ==> Align(p, s) == Align(x, s)
    requires s < x.scale ==> x.unscaled < (p.unscaled + 1) * Pow10(x.scale - s)
    ensures Less(x, Add(p, Decimal(1, s)))
  {
    var u := Decimal(1, s);
    var e := Add(p, u);
    var m := Max(s, x.scale);
    var k := Pow10(m - s);
    assert Align(e, m) == Align(p, m) + Align(u, m);
    assert Align(p, m) == p.unscaled * k;
    assert Align(u, m) == 1 * k;
    if s >= x.scale {
      assert Pow10(0) == 1;
    } else {
      assert Pow10(0) == 1;
      assert Align(x, m) == x.unscaled * Pow10(0);
      FloorStep(p.unscaled, k, x.unscaled);
    }
  }

  lemma CeilingStep(pu: int, k: int, xu: int)
    requires (pu - 1) * k < xu
    ensures pu * k - 1 * k < xu
  {
    assert (pu - 1) * k == pu * k - k;
  }

  lemma FloorStep(pu: int, k: int, xu: int)
    requires xu < (pu + 1) * k
    ensures xu < pu * k + 1 * k
  {
    assert (pu + 1) * k == pu * k + k;
  }
}
