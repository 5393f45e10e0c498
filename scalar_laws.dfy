/** Properties of scalar units: conversion, `+` and `-` between scalars,
    and scalar equality. */
module ScalarLaws {
  import opened Outcomes
  import opened Catalog
  import opened Units

  /** Two units of one kind that stand for the same base quantity are equal. */
  lemma SameBaseSameUnit(x: Unit, y: Unit)
    requires x.kind == y.kind && BaseAmount(x) == BaseAmount(y)
    ensures x == y
  {
  }

  /** Converting to a kind of the same dimension and back returns the
      original unit exactly (over the reals). */
  lemma ConvertRoundTrip(u: Unit, target: Unit)
    requires u.amount >= 0.0 && SameType(u, target)
    ensures To(u, U(target)).Ok?
    ensures To(To(u, U(target)).value, U(u)) == Ok(u)
  {
    var there := To(u, U(target)).value;
    var back := To(there, U(u));
    assert back.Ok? && back.value.kind == u.kind;
    SameBaseSameUnit(back.value, u);
  }

  /** A non-negative amount stands for a non-negative base quantity. */
  lemma BaseAmountNonNegative(u: Unit)
    requires u.amount >= 0.0
    ensures BaseAmount(u) >= 0.0
  {
  }

  /** Adding a unit and then subtracting it again restores the left
      operand, kind and amount. */
  lemma AddThenSubtract(a: Unit, b: Unit)
    requires a.amount >= 0.0 && b.amount >= 0.0 && SameType(a, b)
    ensures Add(U(a), U(b)).Ok?
    ensures Sub(Add(U(a), U(b)).value, U(b)) == Ok(U(a))
  {
    var sum := UnitAdd(a, U(b));
    assert sum.Ok? && sum.value.U?;
    var s := sum.value.unit;
    assert s.kind == a.kind && s.amount >= 0.0;
    BaseAmountNonNegative(a);
    var back := UnitSub(s, U(b));
    assert SameType(s, b);
    assert back.Ok? && back.value.U?;
    var r := back.value.unit;
    assert r.kind == a.kind && BaseAmount(r) == BaseAmount(a);
    SameBaseSameUnit(r, a);
  }

  /** A subtraction that succeeds is undone by adding the subtrahend back. */
  lemma SubtractThenAdd(a: Unit, b: Unit)
    requires a.amount >= 0.0 && b.amount >= 0.0
    requires Sub(U(a), U(b)).Ok?
    ensures Add(Sub(U(a), U(b)).value, U(b)) == Ok(U(a))
  {
    var diff := UnitSub(a, U(b));
    assert diff.Ok? && diff.value.U?;
    var d := diff.value.unit;
    assert SameType(a, b);
    assert d.kind == a.kind && d.amount >= 0.0;
    var back := UnitAdd(d, U(b));
    assert SameType(d, b);
    assert back.Ok? && back.value.U?;
    var r := back.value.unit;
    assert r.kind == a.kind && BaseAmount(r) == BaseAmount(a);
    SameBaseSameUnit(r, a);
  }

  /** The sum of two scalars of one dimension does not depend on the order of
      the operands except for the kind it is expressed in. */
  lemma AddCommutesInBaseUnits(a: Unit, b: Unit)
    requires a.amount >= 0.0 && b.amount >= 0.0 && SameType(a, b)
    ensures Add(U(a), U(b)).Ok? && Add(U(b), U(a)).Ok?
    ensures BaseAmount(Add(U(a), U(b)).value.unit) == BaseAmount(Add(U(b), U(a)).value.unit)
    ensures To(Add(U(b), U(a)).value.unit, U(a)) == Ok(Add(U(a), U(b)).value.unit)
  {
    var ab := UnitAdd(a, U(b));
    var ba := UnitAdd(b, U(a));
    assert ab.Ok? && ab.value.U? && ba.Ok? && ba.value.U?;
    var x, y := ab.value.unit, ba.value.unit;
    assert BaseAmount(x) == BaseAmount(y);
    var conv := To(y, U(a));
    assert conv.Ok? && conv.value.kind == x.kind;
    SameBaseSameUnit(conv.value, x);
  }

  /** Scalar equality holds exactly when the two units are the same kind
      with the same amount; it never raises between scalars. */
  lemma UnitEqIsIdentity(a: Unit, b: Unit)
    ensures Eq(U(a), U(b)) == Ok(a == b)
  {
  }

  /** `Meter(2) == Meter(1) + Centimeter(100)`. */
  lemma MeterPlusCentimeters()
    ensures Add(U(Unit(Meter, 1.0)), U(Unit(Centimeter, 100.0))) == Ok(U(Unit(Meter, 2.0)))
    ensures Eq(U(Unit(Meter, 2.0)), Add(U(Unit(Meter, 1.0)), U(Unit(Centimeter, 100.0))).value) == Ok(true)
  {
  }

  /** `Meter(1) + Second(1)` raises `UnitError`, and so do the difference
      and the conversion. */
  lemma CrossDimensionFails(a: Unit, b: Unit)
    requires UnitType(a.kind) != UnitType(b.kind)
    ensures Add(U(a), U(b)) == Err(UnitError(SameTypeMsg))
    ensures Sub(U(a), U(b)) == Err(UnitError(SameTypeMsg))
    ensures To(a, U(b)) == Err(UnitError(SameTypeMsg))
  {
  }
}
