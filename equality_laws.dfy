/** Properties of `==` on units: it decides structural equality when the two
    values have the same shape, and raises `UnitError` at the first place
    where a scalar meets a compound or a missing slot. */
module EqualityLaws {
  import opened Outcomes
  import opened Catalog
  import opened Units

  /** Two values with scalars, compounds and missing denominators in the
      same places. */
  predicate SameShape(a: Val, b: Val)
    decreases Size(a)
  {
    match a
    case U(_) => b.U?
    case C(c) =>
      && b.C?
      && SameShape(c.num, b.comp.num)
      && (c.den.None? <==> b.comp.den.None?)
      && (c.den.Some? && b.comp.den.Some? ==> SameShape(c.den.value, b.comp.den.value))
  }

  /** One step of `==` on two compounds: numerators, then the slots. */
  lemma CompoundEqStep(c: Compound, o: Compound)
    ensures Eq(C(c), C(o)) ==
      if Eq(c.num, o.num).Err? then Err(Eq(c.num, o.num).error)
      else if !Eq(c.num, o.num).value then Ok(false)
      else SlotEq(c.den, o.den)
    ensures c.den.Some? && o.den.Some? ==> SlotEq(c.den, o.den) == Eq(c.den.value, o.den.value)
    ensures c.den.None? && o.den.None? ==> SlotEq(c.den, o.den) == Ok(true)
    ensures c.den.None? != o.den.None? ==> SlotEq(c.den, o.den) == Err(UnitError(SameTypeMsg))
  {
  }

  /** Every value equals itself. */
  lemma {:induction false} EqReflexive(a: Val)
    ensures Eq(a, a) == Ok(true)
    decreases Size(a)
  {
    match a
    case U(_) =>
    case C(c) =>
      CompoundEqStep(c, c);
      EqReflexive(c.num);
      if c.den.Some? {
        EqReflexive(c.den.value);
      }
  }

  /** When `==` answers, its answer is structural equality of the values. */
  lemma {:induction false} EqSound(a: Val, b: Val)
    requires Eq(a, b).Ok?
    ensures Eq(a, b).value <==> a == b
    decreases Size(a)
  {
    match a
    case U(u) =>
      KindDetermined(u.kind, b.unit.kind);
    case C(c) =>
      var o := b.comp;
      CompoundEqStep(c, o);
      EqSound(c.num, o.num);
      if Eq(c.num, o.num).value && c.den.Some? && o.den.Some? {
        EqSound(c.den.value, o.den.value);
      }
  }

  /** Between values of the same shape `==` never raises. */
  lemma {:induction false} EqTotalOnSameShape(a: Val, b: Val)
    requires SameShape(a, b)
    ensures Eq(a, b).Ok?
    decreases Size(a)
  {
    match a
    case U(_) =>
    case C(c) =>
      var o := b.comp;
      CompoundEqStep(c, o);
      EqTotalOnSameShape(c.num, o.num);
      if c.den.Some? {
        EqTotalOnSameShape(c.den.value, o.den.value);
      }
  }

  /** `==` raises only between values of different shapes. The first
      ensures repeats `Eq`'s own contract and the second is the contrapositive
      of `EqTotalOnSameShape`; the lemma puts both in one statement. */
  lemma {:induction false} EqRaisesOnlyOnShapeMismatch(a: Val, b: Val)
    requires Eq(a, b).Err?
    ensures Eq(a, b).error == UnitError(SameTypeMsg)
    ensures !SameShape(a, b)
    decreases Size(a)
  {
    if SameShape(a, b) {
      EqTotalOnSameShape(a, b);
    }
    match a
    case U(_) =>
    case C(c) =>
      match b {
        case U(_) =>
        case C(o) =>
          CompoundEqStep(c, o);
          if Eq(c.num, o.num).Err? {
            EqRaisesOnlyOnShapeMismatch(c.num, o.num);
          } else if c.den.Some? && o.den.Some? {
            EqRaisesOnlyOnShapeMismatch(c.den.value, o.den.value);
          }
      }
  }

  /** `a == b` and `b == a` give the same answer or raise the same error. */
  lemma {:induction false} EqSymmetric(a: Val, b: Val)
    ensures Eq(a, b) == Eq(b, a)
    decreases Size(a)
  {
    match a
    case U(_) =>
    case C(c) =>
      match b {
        case U(_) =>
        case C(o) =>
          CompoundEqStep(c, o);
          CompoundEqStep(o, c);
          EqSymmetric(c.num, o.num);
          if c.den.Some? && o.den.Some? {
            EqSymmetric(c.den.value, o.den.value);
          }
      }
  }

  /** A scalar compared with a compound raises in either order, and so does a
      present denominator compared with a missing one. */
  lemma MismatchRaises(u: Unit, c: Compound, v: Val)
    ensures Eq(U(u), C(c)) == Err(UnitError(SameTypeMsg))
    ensures Eq(C(c), U(u)) == Err(UnitError(SameTypeMsg))
    ensures SlotEq(None, Some(v)) == Err(UnitError(SameTypeMsg))
    ensures SlotEq(Some(v), None) == Err(UnitError(SameTypeMsg))
  {
  }

  /** Unequal numerators end the comparison with false before the
      denominators are looked at, even when the denominators could not be
      compared. */
  lemma NumeratorsDecideFirst(c: Compound, o: Compound)
    requires Eq(c.num, o.num) == Ok(false)
    ensures Eq(C(c), C(o)) == Ok(false)
  {
  }

  /** Both unit tests on compounds hold: `==` answers true. */
  lemma CompoundTestsHold()
    ensures Eq(C(Compound(U(Unit(Meter, 10.0)), Some(U(Unit(Second, 2.0))))),
               Div(U(Unit(Meter, 10.0)), U(Unit(Second, 2.0)))) == Ok(true)
    ensures Eq(C(Compound(U(Unit(Meter, 10.0)), Some(Mul(U(Unit(Second, 2.0)), U(Unit(Second, 5.0)))))),
               Div(Div(U(Unit(Meter, 10.0)), U(Unit(Second, 2.0))), U(Unit(Second, 5.0)))) == Ok(true)
  {
    var m10, s2, s5 := U(Unit(Meter, 10.0)), U(Unit(Second, 2.0)), U(Unit(Second, 5.0));
    var speed := C(Compound(m10, Some(s2)));
    assert Div(m10, s2) == speed;
    EqReflexive(speed);
    var nested := C(Compound(m10, Some(Mul(s2, s5))));
    assert Div(speed, s5) == nested;
    EqReflexive(nested);
  }
}
