/** Whole multiples of a positive unit, and rounding to them: down, up, and half to even. */
module Rounding {

  function Times(k: int, unit: real): real { k as real * unit }

  ghost predicate Multiple(x: real, unit: real) { exists k: int :: Times(k, unit) == x }

  /** The sign of a product with a positive factor. */
  lemma Product(x: real, y: real)
    ensures x >= 0.0 && y >= 0.0 ==> x * y >= 0.0
    ensures x > 0.0 && y > 0.0 ==> x * y > 0.0
    ensures x * y > 0.0 && y > 0.0 ==> x > 0.0
    ensures x * y >= 0.0 && y > 0.0 ==> x >= 0.0
  {
  }

  lemma TimesMonotone(i: int, j: int, unit: real)
    requires unit > 0.0
    ensures i <= j <==> Times(i, unit) <= Times(j, unit)
  {
  }

  lemma DivBounds(x: real, unit: real, k: int)
    requires unit > 0.0
    ensures k as real <= x / unit <==> Times(k, unit) <= x
    ensures x / unit <= k as real <==> x <= Times(k, unit)
  {
  }

  lemma MultipleSum(x: real, y: real, unit: real)
    requires Multiple(x, unit) && Multiple(y, unit)
    ensures Multiple(x + y, unit) && Multiple(x - y, unit)
  {
    var i: int :| Times(i, unit) == x;
    var j: int :| Times(j, unit) == y;
    assert Times(i + j, unit) == x + y;
    assert Times(i - j, unit) == x - y;
  }

  lemma MultipleZero(unit: real)
    ensures Multiple(0.0, unit)
  {
    assert Times(0, unit) == 0.0;
  }

  lemma MultipleRefine(x: real, fine: real, coarse: real, factor: int)
    requires Multiple(x, coarse) && coarse == Times(factor, fine)
    ensures Multiple(x, fine)
  {
    var k: int :| Times(k, coarse) == x;
    assert (k * factor) as real == k as real * factor as real;
    assert Times(k * factor, fine) == x;
  }

  // ---------------------------------------------------------------------------------------
  // Truncation and its opposite

  function TowardZero(x: real): int { if x >= 0.0 then x.Floor else -((-x).Floor) }

  function AwayFromZero(x: real): int { if x >= 0.0 then -((-x).Floor) else x.Floor }

  function StepDown(x: real, step: real): real
    requires step > 0.0
  {
    TowardZero(x / step) as real * step
  }

  function StepUp(x: real, step: real): real
    requires step > 0.0
  {
    AwayFromZero(x / step) as real * step
  }

  /** Rounding down gives the greatest multiple that does not exceed the value. */
  lemma StepDownIsGreatest(x: real, step: real)
    requires step > 0.0 && x >= 0.0
    ensures Multiple(StepDown(x, step), step)
    ensures 0.0 <= StepDown(x, step) <= x < StepDown(x, step) + step
    ensures forall m: int :: Times(m, step) <= x ==> Times(m, step) <= StepDown(x, step)
  {
    DivBounds(x, step, 0);
    var k := TowardZero(x / step);
    DivBounds(x, step, k);
    DivBounds(x, step, k + 1);
    assert StepDown(x, step) == Times(k, step);
    assert Times(k + 1, step) == Times(k, step) + step;
    assert k >= 0;
    TimesMonotone(0, k, step);
    forall m: int | Times(m, step) <= x ensures Times(m, step) <= Times(k, step) {
      DivBounds(x, step, m);
      TimesMonotone(m, k, step);
    }
  }

  /** Rounding up gives the least multiple that is not below the value. */
  lemma StepUpIsLeast(x: real, step: real)
    requires step > 0.0 && x >= 0.0
    ensures Multiple(StepUp(x, step), step)
    ensures x <= StepUp(x, step) < x + step
    ensures forall m: int :: x <= Times(m, step) ==> StepUp(x, step) <= Times(m, step)
  {
    DivBounds(x, step, 0);
    var k := AwayFromZero(x / step);
    DivBounds(x, step, k);
    DivBounds(x, step, k - 1);
    assert StepUp(x, step) == Times(k, step);
    assert Times(k - 1, step) == Times(k, step) - step;
    forall m: int | x <= Times(m, step) ensures Times(k, step) <= Times(m, step) {
      DivBounds(x, step, m);
      TimesMonotone(k, m, step);
    }
  }

  /** A value that rounds down to itself is exactly a multiple. */
  lemma StepDownFixed(x: real, step: real)
    requires step > 0.0 && x >= 0.0
    ensures StepDown(x, step) == x <==> Multiple(x, step)
  {
    StepDownIsGreatest(x, step);
  }

  lemma NegativeTruncates(x: real, step: real)
    requires step > 0.0 && x < 0.0
    ensures StepDown(x, step) <= 0.0
  {
  }

  // ---------------------------------------------------------------------------------------
  // Half to even

  function HalfEven(y: real): int
  {
    var f := y.Floor;
    var d := y - f as real;
    if d < 0.5 then f
    else if d > 0.5 then f + 1
    else if f % 2 == 0 then f else f + 1
  }

  function Round(x: real, unit: real): real
    requires unit > 0.0
  {
    Times(HalfEven(x / unit), unit)
  }

  /** A rounded value is a multiple of the unit, at most half a unit away. */
  lemma RoundNear(x: real, unit: real)
    requires unit > 0.0
    ensures Multiple(Round(x, unit), unit)
    ensures -(unit / 2.0) <= Round(x, unit) - x <= unit / 2.0
  {
    var y := x / unit;
    assert y * unit == x;
    var e := HalfEven(y) as real - y;
    assert -0.5 <= e <= 0.5;
    assert Round(x, unit) - x == e * unit;
    Product(0.5 - e, unit);
    Product(0.5 + e, unit);
  }

  /** Rounding leaves multiples alone. */
  lemma RoundFixes(x: real, unit: real)
    requires unit > 0.0 && Multiple(x, unit)
    ensures Round(x, unit) == x
  {
    var k: int :| Times(k, unit) == x;
    DivBounds(x, unit, k);
    assert x / unit == k as real;
  }

  lemma HalfEvenMonotone(x: real, y: real)
    requires x <= y
    ensures HalfEven(x) <= HalfEven(y)
  {
  }

  lemma DivMonotone(x: real, y: real, unit: real)
    requires unit > 0.0 && x <= y
    ensures x / unit <= y / unit
  {
  }

  lemma QuotientAtLeast(x: real, d: real, y: real)
    requires d > 0.0
    ensures x / d < y <==> x < y * d
    ensures x / d <= y <==> x <= y * d
  {
    var z := x / d;
    assert z * d == x;
    assert (y - z) * d == y * d - x;
    if z < y { assert (y - z) * d > 0.0; }
    if z > y { assert (z - y) * d > 0.0; }
  }

  lemma UnitQuotient(x: real, y: real)
    requires 0.0 <= x <= y && y > 0.0
    ensures 0.0 <= x / y <= 1.0
  {
    DivMonotone(0.0, x, y);
    DivMonotone(x, y, y);
  }

  lemma UnitProduct(x: real, y: real)
    requires 0.0 <= x <= 1.0 && 0.0 <= y <= 1.0
    ensures 0.0 <= x * y <= 1.0
  {
    Product(x, y);
    Product(x, 1.0 - y);
    assert x * (1.0 - y) == x - x * y;
  }

  lemma RoundMonotone(x: real, y: real, unit: real)
    requires unit > 0.0 && x <= y
    ensures Round(x, unit) <= Round(y, unit)
  {
    DivMonotone(x, y, unit);
    HalfEvenMonotone(x / unit, y / unit);
    TimesMonotone(HalfEven(x / unit), HalfEven(y / unit), unit);
  }

  lemma RoundNonNegative(x: real, unit: real)
    requires unit > 0.0 && x >= 0.0
    ensures Round(x, unit) >= 0.0
  {
  }

  /** The rounded value is a nearest multiple, and of two equally near ones the even one. */
  lemma HalfEvenIs(y: real)
    ensures -0.5 <= HalfEven(y) as real - y <= 0.5
    ensures HalfEven(y) as real - y in {-0.5, 0.5} ==> HalfEven(y) % 2 == 0
  {
  }

  /** Rounding a quantity down or up ignores its sign. */
  lemma StepsNegate(x: real, step: real)
    requires step > 0.0 && x != 0.0
    ensures StepDown(-x, step) == -StepDown(x, step) && StepUp(-x, step) == -StepUp(x, step)
  {
    assert (-x) / step == -(x / step);
    Product(x, 1.0 / step);
    Product(-x, 1.0 / step);
    SignOfQuotient(x, step);
  }

  lemma SignOfQuotient(x: real, step: real)
    requires step > 0.0 && x != 0.0
    ensures x > 0.0 <==> x / step > 0.0
    ensures x / step != 0.0
  {
    var y := x / step;
    assert y * step == x;
    Product(y, step);
    Product(-y, step);
  }
}
