/** Properties of compound units: the compatibility guard, `+` and `-`
    involving compounds, the tree-building rules of `*` and `/`, and the
    non-negative-amount invariant. */
module CompoundLaws {
  import opened Outcomes
  import opened Catalog
  import opened Units

  // ---------------------------------------------------------------------
  // The compatibility guard

  /** The guard passes exactly when the other operand is compound, all four
      slots hold scalar units, and the two numerators and the two
      denominators each share a dimension. It raises `TypeError` exactly when
      a slot is missing or compound, and `UnitError` on a dimension clash. */
  lemma CompatibilityCharacterized(c: Compound, other: Val)
    ensures CheckCompatibility(c, other).Ok? <==>
      && other.C? && c.num.U? && IsUnitSlot(c.den) && other.comp.num.U? && IsUnitSlot(other.comp.den)
      && SameType(c.num.unit, other.comp.num.unit)
      && SameType(c.den.value.unit, other.comp.den.value.unit)
    ensures CheckCompatibility(c, other).Err? && CheckCompatibility(c, other).error.TypeError? <==>
      !(other.C? && c.num.U? && IsUnitSlot(c.den) && other.comp.num.U? && IsUnitSlot(other.comp.den))
  {
  }

  /** The "one has a denominator, other does not" branch can never be taken:
      a missing denominator is already rejected as a `TypeError`. */
  lemma ShapeBranchUnreachable(c: Compound, other: Val)
    ensures CheckCompatibility(c, other) != Err(UnitError(ShapeMismatchMsg))
  {
  }

  /** Compounds without a denominator (products) can never be added to or
      subtracted from a compound. */
  lemma ProductsNeverCombine(c: Compound, o: Compound)
    requires c.den.None? || o.den.None?
    ensures Add(C(c), C(o)) == Err(TypeError(CompatibilityTypeMsg))
    ensures Sub(C(c), C(o)) == Err(TypeError(CompatibilityTypeMsg))
  {
  }

  // ---------------------------------------------------------------------
  // `+` and `-` with a compound operand

  /** A scalar plus a compound is the compound plus the scalar; it raises
      `UnitError` when the compound has a denominator. */
  lemma UnitPlusCompound(u: Unit, c: Compound)
    ensures Add(U(u), C(c)) == Add(C(c), U(u))
    ensures c.den.Some? ==> Add(U(u), C(c)) == Err(UnitError(AddToRatioMsg))
  {
  }

  /** A scalar minus a compound always raises `TypeError`: the scalar is
      wrapped as a compound without a denominator, which the guard rejects. */
  lemma UnitMinusCompoundFails(u: Unit, c: Compound)
    ensures Sub(U(u), C(c)) == Err(TypeError(CompatibilityTypeMsg))
  {
    var wrapped := Compound(U(u), None);
    assert CheckCompatibility(wrapped, C(c)) == Err(TypeError(CompatibilityTypeMsg));
    assert CompoundSub(wrapped, C(c)) == Err(TypeError(CompatibilityTypeMsg));
  }

  /** A compound plus or minus a scalar: with a denominator it raises
      `UnitError`; without one the scalar is combined with the numerator and
      the result is again a compound without a denominator. */
  lemma CompoundWithUnit(c: Compound, b: Unit)
    ensures c.den.Some? ==> Add(C(c), U(b)) == Err(UnitError(AddToRatioMsg))
    ensures c.den.Some? ==> Sub(C(c), U(b)) == Err(UnitError(SubtractFromRatioMsg))
    ensures c.den.None? ==> (Add(C(c), U(b)).Ok? <==> Add(c.num, U(b)).Ok?)
    ensures c.den.None? && Add(C(c), U(b)).Ok? ==> Add(C(c), U(b)).value == C(Compound(Add(c.num, U(b)).value, None))
    ensures c.den.None? ==> (Sub(C(c), U(b)).Ok? <==> Sub(c.num, U(b)).Ok?)
    ensures c.den.None? && Sub(C(c), U(b)).Ok? ==> Sub(C(c), U(b)).value == C(Compound(Sub(c.num, U(b)).value, None))
  {
  }

  /** A product compound whose numerator is a scalar absorbs a scalar of the
      same dimension: base quantities add, the numerator keeps its kind. The
      scalar may stand on either side: `b + Compound(n)` is handed to the
      compound, so unlike scalar `+` it is expressed in `n`'s kind, not in
      the left operand's. */
  lemma ProductPlusUnit(n: Unit, b: Unit)
    requires n.amount >= 0.0 && b.amount >= 0.0 && SameType(n, b)
    ensures Add(C(Compound(U(n), None)), U(b)).Ok?
    ensures Add(U(b), C(Compound(U(n), None))) == Add(C(Compound(U(n), None)), U(b))
    ensures var r := Add(C(Compound(U(n), None)), U(b)).value;
      && r.C? && r.comp.den.None? && r.comp.num.U? && r.comp.num.unit.kind == n.kind
      && BaseAmount(r.comp.num.unit) == BaseAmount(n) + BaseAmount(b)
  {
    var p := Compound(U(n), None);
    var s := UnitAdd(n, U(b));
    assert s.Ok? && s.value.U?;
    assert Add(p.num, U(b)) == s;
    assert CompoundAdd(p, U(b)) == Ok(C(Compound(s.value, None)));
    assert UnitAdd(b, C(p)) == CompoundAdd(p, U(b));
  }

  /** Compound plus compound, once the guard passes: the numerators are
      summed in base units in the left numerator's kind, and the left
      denominator is kept as it is. */
  lemma CompoundPlusCompound(c: Compound, o: Compound)
    requires CheckCompatibility(c, C(o)).Ok?
    requires c.num.unit.amount >= 0.0 && o.num.unit.amount >= 0.0
    ensures Add(C(c), C(o)).Ok?
    ensures var r := Add(C(c), C(o)).value;
      && r.C? && r.comp.den == c.den && r.comp.num.U?
      && r.comp.num.unit.kind == c.num.unit.kind
      && BaseAmount(r.comp.num.unit) == BaseAmount(c.num.unit) + BaseAmount(o.num.unit)
  {
    CompatibilityCharacterized(c, C(o));
    var s := UnitAdd(c.num.unit, o.num);
    assert s.Ok? && s.value.U?;
    assert Add(c.num, o.num) == s;
    assert CompoundAdd(c, C(o)) == Ok(C(Compound(s.value, c.den)));
  }

  /** Compound minus compound, once the guard passes: it succeeds exactly
      when the left numerator is at least the right one in base units; the
      numerators are subtracted and the left denominator is kept. */
  lemma CompoundMinusCompound(c: Compound, o: Compound)
    requires CheckCompatibility(c, C(o)).Ok?
    ensures Sub(C(c), C(o)).Ok? <==> BaseAmount(c.num.unit) >= BaseAmount(o.num.unit)
    ensures Sub(C(c), C(o)).Err? ==> Sub(C(c), C(o)).error.UnitError?
    ensures Sub(C(c), C(o)).Ok? ==> var r := Sub(C(c), C(o)).value;
      && r.C? && r.comp.den == c.den && r.comp.num.U?
      && r.comp.num.unit.kind == c.num.unit.kind
      && BaseAmount(r.comp.num.unit) == BaseAmount(c.num.unit) - BaseAmount(o.num.unit)
  {
    CompatibilityCharacterized(c, C(o));
    var s := UnitSub(c.num.unit, o.num);
    assert Sub(c.num, o.num) == s;
    if s.Ok? {
      assert CompoundSub(c, C(o)) == Ok(C(Compound(s.value, c.den)));
    } else {
      assert CompoundSub(c, C(o)) == Err(s.error);
    }
  }

  /** The amount of the right operand's denominator plays no part in
      compound `+` and `-`: only its dimension is checked. */
  lemma OtherDenominatorAmountIgnored(c: Compound, o: Compound, x: real)
    requires IsUnitSlot(o.den)
    ensures var o' := Compound(o.num, Some(U(Unit(o.den.value.unit.kind, x))));
      Add(C(c), C(o)) == Add(C(c), C(o')) && Sub(C(c), C(o)) == Sub(C(c), C(o'))
  {
  }

  // ---------------------------------------------------------------------
  // `*` and `/` keep every scalar factor

  /** A scalar times anything keeps both operands' factors. */
  lemma UnitMulKeepsFactors(u: Unit, b: Val)
    ensures Factors(Mul(U(u), b)) == multiset{u} + Factors(b)
  {
    if b.C? {
      var inner := C(Compound(U(u), Some(b.comp.num)));
      assert Mul(U(u), b) == C(Compound(inner, b.comp.den));
      assert Factors(inner) == multiset{u} + Factors(b.comp.num);
    }
  }

  /** Multiplication neither drops nor duplicates a scalar unit. */
  lemma {:induction false} MulKeepsFactors(a: Val, b: Val)
    ensures Factors(Mul(a, b)) == Factors(a) + Factors(b)
    decreases Size(a)
  {
    match a
    case U(u) =>
      UnitMulKeepsFactors(u, b);
    case C(c) =>
      match b {
        case U(_) =>
          MulKeepsFactors(c.num, b);
          assert Mul(a, b) == C(Compound(Mul(c.num, b), c.den));
        case C(o) =>
          MulKeepsFactors(c.num, o.num);
          var n := Mul(c.num, o.num);
          if c.den.Some? && o.den.Some? {
            MulKeepsFactors(c.den.value, o.den.value);
            assert Mul(a, b) == C(Compound(n, Some(Mul(c.den.value, o.den.value))));
          } else if c.den.Some? {
            assert Mul(a, b) == C(Compound(n, c.den));
          } else {
            assert Mul(a, b) == C(Compound(n, o.den));
          }
      }
  }

  /** A scalar times a scalar is stored exactly as their quotient would be:
      the left operand as numerator, the right one as denominator. */
  lemma UnitProductIsRatio(a: Unit, b: Unit)
    ensures Mul(U(a), U(b)) == Div(U(a), U(b))
    ensures Mul(U(a), U(b)).comp.num == U(a) && Mul(U(a), U(b)).comp.den == Some(U(b))
  {
  }

  /** The operand order of a scalar product is kept, never commuted. */
  lemma ProductOrderKept(a: Unit, b: Unit)
    ensures Mul(U(a), U(b)) == Mul(U(b), U(a)) <==> a == b
  {
  }

  /** A scalar times a compound: the new numerator is the scalar divided by
      the compound's numerator (both end up in it), and the compound's
      denominator is kept. */
  lemma UnitTimesCompound(u: Unit, c: Compound)
    ensures Mul(U(u), C(c)) == C(Compound(Div(U(u), c.num), c.den))
    ensures Mul(U(u), C(c)).comp.den == c.den
    ensures Factors(Mul(U(u), C(c)).comp.num) == multiset{u} + Factors(c.num)
  {
  }

  /** A compound times a scalar: the new numerator is the old numerator
      times the scalar, in that order; the denominator is kept.
      The slot equations repeat the operator's own contract next to the
      count of scalar units. */
  lemma CompoundTimesUnit(c: Compound, u: Unit)
    ensures Mul(C(c), U(u)).comp.num == Mul(c.num, U(u))
    ensures Mul(C(c), U(u)).comp.den == c.den
    ensures Factors(Mul(C(c), U(u)).comp.num) == Factors(c.num) + multiset{u}
  {
    MulKeepsFactors(c.num, U(u));
  }

  /** A compound times a compound: numerators multiply, and the result has a
      denominator exactly when either operand has one, holding the factors
      of both.
      The slot equations repeat the operator's own contract next to the
      count of scalar units. */
  lemma CompoundTimesCompound(c: Compound, o: Compound)
    ensures Mul(C(c), C(o)).comp.num == Mul(c.num, o.num)
    ensures Mul(C(c), C(o)).comp.den ==
      if c.den.Some? && o.den.Some? then Some(Mul(c.den.value, o.den.value))
      else if c.den.Some? then c.den else o.den
    ensures Factors(Mul(C(c), C(o)).comp.num) == Factors(c.num) + Factors(o.num)
    ensures Mul(C(c), C(o)).comp.den.Some? <==> c.den.Some? || o.den.Some?
    ensures SlotFactors(Mul(C(c), C(o)).comp.den) == SlotFactors(c.den) + SlotFactors(o.den)
  {
    MulKeepsFactors(c.num, o.num);
    if c.den.Some? && o.den.Some? {
      MulKeepsFactors(c.den.value, o.den.value);
    }
  }

  /** A compound divided by a scalar: the numerator is kept; the new
      denominator is the old one times the scalar, or the scalar alone.
      The slot equations repeat the operator's own contract next to the
      count of scalar units. */
  lemma CompoundOverUnit(c: Compound, u: Unit)
    ensures Div(C(c), U(u)).comp.num == c.num
    ensures Div(C(c), U(u)).comp.den == Some(if c.den.Some? then Mul(c.den.value, U(u)) else U(u))
    ensures SlotFactors(Div(C(c), U(u)).comp.den) == SlotFactors(c.den) + multiset{u}
  {
    if c.den.Some? {
      MulKeepsFactors(c.den.value, U(u));
    }
  }

  /** A compound divided by a compound cross-multiplies: the new numerator
      holds the left numerator and the right denominator, the new
      denominator the left denominator and the right numerator.
      The slot equations repeat the operator's own contract next to the
      count of scalar units. */
  lemma CompoundOverCompound(c: Compound, o: Compound)
    ensures Div(C(c), C(o)).comp.num == if o.den.Some? then Mul(c.num, o.den.value) else c.num
    ensures Div(C(c), C(o)).comp.den == Some(if c.den.Some? then Mul(c.den.value, o.num) else o.num)
    ensures Factors(Div(C(c), C(o)).comp.num) == Factors(c.num) + SlotFactors(o.den)
    ensures SlotFactors(Div(C(c), C(o)).comp.den) == SlotFactors(c.den) + Factors(o.num)
  {
    if o.den.Some? {
      MulKeepsFactors(c.num, o.den.value);
    }
    if c.den.Some? {
      MulKeepsFactors(c.den.value, o.num);
    }
  }

  /** Division neither drops nor duplicates a scalar unit. */
  lemma DivKeepsFactors(a: Val, b: Val)
    ensures Factors(Div(a, b)) == Factors(a) + Factors(b)
  {
    match a
    case U(u) =>
      assert Div(a, b) == C(Compound(a, Some(b)));
    case C(c) =>
      var r := Div(a, b).comp;
      assert Factors(Div(a, b)) == Factors(r.num) + SlotFactors(r.den);
      assert Factors(a) == Factors(c.num) + SlotFactors(c.den);
      match b {
        case U(u) =>
          CompoundOverUnit(c, u);
          assert SlotFactors(r.den) == SlotFactors(c.den) + multiset{u};
        case C(o) =>
          CompoundOverCompound(c, o);
          assert Factors(b) == Factors(o.num) + SlotFactors(o.den);
          assert Factors(r.num) == Factors(c.num) + SlotFactors(o.den);
          assert SlotFactors(r.den) == SlotFactors(c.den) + Factors(o.num);
      }
  }

  /** Dividing a quotient of scalars by a scalar nests the divisor as the
      denominator of the denominator: `(m / s1) / s2` is
      `CompoundUnit(m, CompoundUnit(s1, s2))`, because the old denominator is
      multiplied by the divisor and scalar `*` stores a ratio. */
  lemma ChainedDivisionNests(m: Unit, s1: Unit, s2: Unit)
    ensures Div(Div(U(m), U(s1)), U(s2)) == C(Compound(U(m), Some(C(Compound(U(s1), Some(U(s2)))))))
  {
  }

  /** `CompoundUnit(Meter(10), Second(2)) == Meter(10) / Second(2)`. */
  lemma MeterPerSecond()
    ensures Div(U(Unit(Meter, 10.0)), U(Unit(Second, 2.0)))
         == C(Compound(U(Unit(Meter, 10.0)), Some(U(Unit(Second, 2.0)))))
  {
  }

  /** `CompoundUnit(Meter(10), Second(2) * Second(5)) == (Meter(10) / Second(2)) / Second(5)`. */
  lemma RightNestedDivision()
    ensures Div(Div(U(Unit(Meter, 10.0)), U(Unit(Second, 2.0))), U(Unit(Second, 5.0)))
         == C(Compound(U(Unit(Meter, 10.0)), Some(Mul(U(Unit(Second, 2.0)), U(Unit(Second, 5.0))))))
  {
  }

  // ---------------------------------------------------------------------
  // No operator produces a negative amount

  /** A compound is valid exactly when its slots are. */
  lemma ValidParts(c: Compound)
    ensures Valid(C(c)) <==> Valid(c.num) && (c.den.Some? ==> Valid(c.den.value))
  {
    assert Factors(C(c)) == Factors(c.num) + SlotFactors(c.den);
  }

  /** Addition of valid values yields a valid value. */
  lemma {:induction false} AddKeepsValid(a: Val, b: Val)
    requires Valid(a) && Valid(b)
    requires Add(a, b).Ok?
    ensures Valid(Add(a, b).value)
    decreases Size(a) + Size(b)
  {
    match a
    case U(u) =>
      match b {
        case U(_) =>
          assert Add(a, b) == UnitAdd(u, b);
        case C(oc) =>
          ValidParts(oc);
          assert Add(a, b) == CompoundAdd(oc, a);
          assert oc.den.None?;
          AddKeepsValid(oc.num, a);
          assert Add(a, b) == Ok(C(Compound(Add(oc.num, a).value, None)));
          ValidParts(Compound(Add(oc.num, a).value, None));
      }
    case C(c) =>
      ValidParts(c);
      match b {
        case U(_) =>
          assert c.den.None?;
          AddKeepsValid(c.num, b);
          assert Add(a, b) == Ok(C(Compound(Add(c.num, b).value, None)));
          ValidParts(Compound(Add(c.num, b).value, None));
        case C(o) =>
          ValidParts(o);
          AddKeepsValid(c.num, o.num);
          var n := Add(c.num, o.num).value;
          assert Add(a, b) == Ok(C(Compound(n, c.den)));
          ValidParts(Compound(n, c.den));
      }
  }

  /** Subtraction of valid values yields a valid value. */
  lemma {:induction false} SubKeepsValid(a: Val, b: Val)
    requires Valid(a) && Valid(b)
    requires Sub(a, b).Ok?
    ensures Valid(Sub(a, b).value)
    decreases Size(a) + Size(b)
  {
    match a
    case U(u) =>
      match b {
        case U(_) =>
          assert Sub(a, b) == UnitSub(u, b);
        case C(oc) =>
          UnitMinusCompoundFails(u, oc);
      }
    case C(c) =>
      ValidParts(c);
      match b {
        case U(_) =>
          assert c.den.None?;
          SubKeepsValid(c.num, b);
          assert Sub(a, b) == Ok(C(Compound(Sub(c.num, b).value, None)));
          ValidParts(Compound(Sub(c.num, b).value, None));
        case C(o) =>
          ValidParts(o);
          SubKeepsValid(c.num, o.num);
          var n := Sub(c.num, o.num).value;
          assert Sub(a, b) == Ok(C(Compound(n, c.den)));
          ValidParts(Compound(n, c.den));
      }
  }

  /** Products and quotients of valid values are valid. */
  lemma MulDivKeepValid(a: Val, b: Val)
    requires Valid(a) && Valid(b)
    ensures Valid(Mul(a, b)) && Valid(Div(a, b))
  {
    MulKeepsFactors(a, b);
    DivKeepsFactors(a, b);
  }
}
