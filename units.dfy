/** Scalar units and compound units with their operators, as the library
    defines them. Python's dynamic dispatch on the operand's class becomes a
    match on `Val`; every operator returns a fresh value or raises, which is
    a `Result`. `Mul` and `Div` never raise on unit operands, so they return
    a plain `Val`. */
module Units {
  import opened Outcomes
  import opened Catalog

  /** A scalar unit: a concrete kind and an amount. The library admits only
      non-negative amounts (see `MakeUnit`). */
  datatype Unit = Unit(kind: Kind, amount: real)

  /** Any operand of the arithmetic: a scalar unit or a compound unit. */
  datatype Val = U(unit: Unit) | C(comp: Compound)

  /** A compound unit: a numerator and an optional denominator, each a
      scalar or compound unit. The constructor stores both slots as given;
      the denominator defaults to `None`. */
  datatype Compound = Compound(num: Val, den: Option<Val>)

  const NegativeAmountMsg := "Unit amounts cannot be negative"
  const SameTypeMsg := "Units must be of the same type"
  const ConvertTargetMsg := "Can only convert to another Unit"
  const CompatibilityTypeMsg := "Can only add/subtract with another CompoundUnit"
  const NumeratorMismatchMsg := "Cannot add/subtract: numerators mismatch"
  const DenominatorMismatchMsg := "Cannot add/subtract: denominators mismatch"
  const ShapeMismatchMsg := "Cannot add/subtract: one has denominator, other does not"
  const AddToRatioMsg := "Cannot add Unit directly to CompoundUnit with denominator"
  const SubtractFromRatioMsg := "Cannot subtract Unit directly from CompoundUnit with denominator"

  // ---------------------------------------------------------------------
  // Measures and views used by the specifications

  /** Number of nodes of a value; the measure that the mutually recursive
      operators decrease. */
  function Size(v: Val): nat
    decreases v
  {
    match v
    case U(_) => 1
    case C(c) => Size(c.num) + (if c.den.Some? then Size(c.den.value) else 0) + 2
  }

  function SlotSize(s: Option<Val>): nat
  {
    if s.Some? then Size(s.value) else 0
  }

  function CompoundSize(c: Compound): nat
  {
    Size(c.num) + SlotSize(c.den) + 1
  }

  /** The quantity a scalar unit stands for, in the base unit of its dimension. */
  function BaseAmount(u: Unit): real
  {
    BaseUnitsPer(u.kind) * u.amount
  }

  predicate SameType(a: Unit, b: Unit)
  {
    UnitType(a.kind) == UnitType(b.kind)
  }

  /** The scalar units that occur anywhere in a value, with multiplicity. */
  function Factors(v: Val): multiset<Unit>
    decreases Size(v), 0
  {
    match v
    case U(u) => multiset{u}
    case C(c) => Factors(c.num) + SlotFactors(c.den)
  }

  function SlotFactors(s: Option<Val>): multiset<Unit>
    decreases SlotSize(s), 1
  {
    match s
    case None => multiset{}
    case Some(v) => Factors(v)
  }

  /** A value every unit of which has a non-negative amount: what the
      library's constructor guarantees. */
  predicate Valid(v: Val)
  {
    forall u | u in Factors(v) :: u.amount >= 0.0
  }

  // ---------------------------------------------------------------------
  // Scalar units

  /** Constructing a unit of kind `k` (`Unit.__init__`): a negative amount
      raises `UnitError`. */
  function MakeUnit(k: Kind, amount: real): (r: Result<Unit>)
    ensures r.Ok? <==> amount >= 0.0
    ensures r.Ok? ==> r.value.kind == k && r.value.amount == amount
    ensures r.Err? ==> r.error.UnitError?
  {
    if amount < 0.0 then Err(UnitError(NegativeAmountMsg)) else Ok(Unit(k, amount))
  }

  /** `u.to(other)`: re-express `u` in the kind of `other` (whose own amount
      plays no part). */
  function To(u: Unit, other: Val): (r: Result<Unit>)
    ensures other.C? ==> r == Err(TypeError(ConvertTargetMsg))
    ensures other.U? && !SameType(u, other.unit) ==> r == Err(UnitError(SameTypeMsg))
    ensures u.amount >= 0.0 && other.U? && SameType(u, other.unit) ==> r.Ok?
    ensures r.Ok? ==> other.U? && r.value.kind == other.unit.kind && BaseAmount(r.value) == BaseAmount(u)
    ensures r.Ok? ==> r.value.amount >= 0.0
  {
    match other
    case C(_) => Err(TypeError(ConvertTargetMsg))
    case U(target) =>
      if UnitType(u.kind) != UnitType(target.kind) then Err(UnitError(SameTypeMsg))
      else MakeUnit(target.kind, u.amount * BaseUnitsPer(u.kind) / BaseUnitsPer(target.kind))
  }

  // ---------------------------------------------------------------------
  // Addition: `Add` dispatches on the left operand's class.

  /** Python's `a + b` on two units. The sum is a scalar exactly when both
      operands are scalars; a compound operand makes the sum compound. */
  function Add(a: Val, b: Val): (r: Result<Val>)
    decreases Size(a) + Size(b), 2
    ensures r.Ok? ==> (r.value.U? <==> a.U? && b.U?)
  {
    match a
    case U(u) => UnitAdd(u, b)
    case C(c) => CompoundAdd(c, b)
  }

  /** `Unit.__add__`: two scalars of one dimension are summed in base units
      and the sum is expressed in the left operand's kind; a compound right
      operand is handed to the compound's own addition. */
  function UnitAdd(u: Unit, other: Val): (r: Result<Val>)
    decreases 1 + Size(other), 1
    ensures other.U? && !SameType(u, other.unit) ==> r == Err(UnitError(SameTypeMsg))
    ensures other.U? && SameType(u, other.unit) && u.amount >= 0.0 && other.unit.amount >= 0.0 ==> r.Ok?
    ensures other.U? && r.Ok? ==>
      r.value.U? && r.value.unit.kind == u.kind && BaseAmount(r.value.unit) == BaseAmount(u) + BaseAmount(other.unit)
    ensures other.U? && r.Ok? ==> r.value.U? && r.value.unit.amount >= 0.0
  {
    match other
    case U(o) =>
      if UnitType(u.kind) != UnitType(o.kind) then Err(UnitError(SameTypeMsg))
      else
        var sum :- MakeUnit(u.kind, (BaseUnitsPer(u.kind) * u.amount + BaseUnitsPer(o.kind) * o.amount) / BaseUnitsPer(u.kind));
        Ok(U(sum))
    case C(oc) => CompoundAdd(oc, U(u))
  }

  /** `CompoundUnit.__add__`. */
  function CompoundAdd(c: Compound, other: Val): (r: Result<Val>)
    decreases CompoundSize(c) + Size(other), 0
    ensures other.U? && c.den.Some? ==> r == Err(UnitError(AddToRatioMsg))
    ensures other.C? && CheckCompatibility(c, other).Err? ==> r == Err(CheckCompatibility(c, other).error)
    ensures r.Ok? ==> r.value.C? && r.value.comp.den == c.den
  {
    match other
    case U(_) =>
      if c.den.None? then
        var n :- Add(c.num, other);
        Ok(C(Compound(n, None)))
      else Err(UnitError(AddToRatioMsg))
    case C(o) =>
      var check := CheckCompatibility(c, other);
      if check.Err? then Err(check.error)
      else
        var n :- Add(c.num, o.num);
        if c.den.Some? then Ok(C(Compound(n, c.den))) else Ok(C(Compound(n, None)))
  }

  // ---------------------------------------------------------------------
  // Subtraction. `Unit - Compound` re-wraps the unit as `Compound(u)`, so
  // the measure ranks on the right operand first.

  /** Python's `a - b` on two units. The difference is a scalar exactly
      when both operands are scalars. */
  function Sub(a: Val, b: Val): (r: Result<Val>)
    decreases Size(b), if b.U? then Size(a) else 0, 2
    ensures r.Ok? ==> (r.value.U? <==> a.U? && b.U?)
  {
    match a
    case U(u) => UnitSub(u, b)
    case C(c) => CompoundSub(c, b)
  }

  /** `Unit.__sub__`: like `UnitAdd` with a difference, which raises
      `UnitError` when it is negative; a compound right operand is
      subtracted from `Compound(u)`. */
  function UnitSub(u: Unit, other: Val): (r: Result<Val>)
    decreases Size(other), if other.U? then 1 else 0, 1
    ensures other.U? && !SameType(u, other.unit) ==> r == Err(UnitError(SameTypeMsg))
    ensures other.U? && SameType(u, other.unit) ==> (r.Ok? <==> BaseAmount(u) >= BaseAmount(other.unit))
    ensures other.U? && r.Err? ==> r.error.UnitError?
    ensures other.U? && r.Ok? ==>
      r.value.U? && r.value.unit.kind == u.kind && BaseAmount(r.value.unit) == BaseAmount(u) - BaseAmount(other.unit)
    ensures other.U? && r.Ok? ==> r.value.U? && r.value.unit.amount >= 0.0
  {
    match other
    case U(o) =>
      if UnitType(u.kind) != UnitType(o.kind) then Err(UnitError(SameTypeMsg))
      else
        var diff :- MakeUnit(u.kind, (BaseUnitsPer(u.kind) * u.amount - BaseUnitsPer(o.kind) * o.amount) / BaseUnitsPer(u.kind));
        Ok(U(diff))
    case C(_) => CompoundSub(Compound(U(u), None), other)
  }

  /** `CompoundUnit.__sub__`. */
  function CompoundSub(c: Compound, other: Val): (r: Result<Val>)
    decreases Size(other), if other.U? then CompoundSize(c) else 0, 0
    ensures other.U? && c.den.Some? ==> r == Err(UnitError(SubtractFromRatioMsg))
    ensures other.C? && CheckCompatibility(c, other).Err? ==> r == Err(CheckCompatibility(c, other).error)
    ensures r.Ok? ==> r.value.C? && r.value.comp.den == c.den
  {
    match other
    case U(_) =>
      if c.den.None? then
        var n :- Sub(c.num, other);
        Ok(C(Compound(n, None)))
      else Err(UnitError(SubtractFromRatioMsg))
    case C(o) =>
      var check := CheckCompatibility(c, other);
      if check.Err? then Err(check.error)
      else
        var n :- Sub(c.num, o.num);
        if c.den.Some? then Ok(C(Compound(n, c.den))) else Ok(C(Compound(n, None)))
  }

  /** A slot holding a scalar unit (an absent slot is not one). */
  predicate IsUnitSlot(s: Option<Val>)
  {
    s.Some? && s.value.U?
  }

  /** `CompoundUnit._check_compatibility`: the guard of compound `+` and `-`. */
  function CheckCompatibility(c: Compound, other: Val): (r: Result<()>)
    ensures r.Ok? ==> other.C? && c.num.U? && IsUnitSlot(c.den) && other.comp.num.U? && IsUnitSlot(other.comp.den)
    ensures r.Ok? ==> SameType(c.num.unit, other.comp.num.unit) && SameType(c.den.value.unit, other.comp.den.value.unit)
    ensures r.Err? ==> r.error.TypeError? || r.error.UnitError?
  {
    match other
    case U(_) => Err(TypeError(CompatibilityTypeMsg))
    case C(o) =>
      if !(c.num.U? && IsUnitSlot(c.den) && o.num.U? && IsUnitSlot(o.den)) then
        Err(TypeError(CompatibilityTypeMsg))
      else if UnitType(c.num.unit.kind) != UnitType(o.num.unit.kind) then
        Err(UnitError(NumeratorMismatchMsg))
      else if c.den.Some? && o.den.Some? then
        if UnitType(c.den.value.unit.kind) != UnitType(o.den.value.unit.kind) then
          Err(UnitError(DenominatorMismatchMsg))
        else Ok(())
      else if c.den.None? != o.den.None? then
        Err(UnitError(ShapeMismatchMsg))
      else Ok(())
  }

  // ---------------------------------------------------------------------
  // Multiplication and division only build trees; they never raise.

  /** Python's `a * b` on two units; the result is always a compound. */
  function Mul(a: Val, b: Val): (r: Val)
    decreases Size(a), 1
    ensures r.C?
  {
    match a
    case U(u) => UnitMul(u, b)
    case C(c) => CompoundMul(c, b)
  }

  /** `Unit.__mul__`: a scalar times a scalar is stored as the ratio
      `Compound(u, other)`, with `other` in the denominator slot. */
  function UnitMul(u: Unit, other: Val): (r: Val)
    ensures other.U? ==> r == UnitDiv(u, other)
    ensures other.C? ==> r == C(Compound(UnitDiv(u, other.comp.num), other.comp.den))
  {
    match other
    case U(_) => C(Compound(U(u), Some(other)))
    case C(o) => C(Compound(C(Compound(U(u), Some(o.num))), o.den))
  }

  /** `CompoundUnit.__mul__`. */
  function CompoundMul(c: Compound, other: Val): (r: Val)
    decreases CompoundSize(c), 0
    ensures r.C? && r.comp.num == Mul(c.num, if other.U? then other else other.comp.num)
    ensures other.U? ==> r.comp.den == c.den
    ensures other.C? ==> (r.comp.den.Some? <==> c.den.Some? || other.comp.den.Some?)
    ensures other.C? && c.den.Some? && other.comp.den.Some? ==> r.comp.den == Some(Mul(c.den.value, other.comp.den.value))
  {
    match other
    case U(_) => C(Compound(Mul(c.num, other), c.den))
    case C(o) =>
      var n := Mul(c.num, o.num);
      var d :=
        if c.den.Some? && o.den.Some? then Some(Mul(c.den.value, o.den.value))
        else if c.den.Some? then c.den
        else if o.den.Some? then o.den
        else None;
      C(Compound(n, d))
  }

  /** Python's `a / b` on two units; the result is always a compound with
      a denominator. */
  function Div(a: Val, b: Val): (r: Val)
    ensures r.C? && r.comp.den.Some?
  {
    match a
    case U(u) => UnitDiv(u, b)
    case C(c) => CompoundDiv(c, b)
  }

  /** `Unit.__truediv__`: no check on the divisor. */
  function UnitDiv(u: Unit, other: Val): (r: Val)
    ensures r.C? && r.comp.num == U(u) && r.comp.den == Some(other)
    ensures Factors(r) == multiset{u} + Factors(other)
  {
    C(Compound(U(u), Some(other)))
  }

  /** `CompoundUnit.__truediv__`. */
  function CompoundDiv(c: Compound, other: Val): (r: Val)
    ensures r.C? && r.comp.den.Some?
    ensures other.U? ==> r.comp.num == c.num
    ensures other.U? ==> r.comp.den == Some(if c.den.Some? then Mul(c.den.value, other) else other)
    ensures other.C? ==> r.comp.num == (if other.comp.den.Some? then Mul(c.num, other.comp.den.value) else c.num)
    ensures other.C? ==> r.comp.den == Some(if c.den.Some? then Mul(c.den.value, other.comp.num) else other.comp.num)
  {
    match other
    case U(_) =>
      C(Compound(c.num, Some(if c.den.Some? then Mul(c.den.value, other) else other)))
    case C(o) =>
      C(Compound(if o.den.Some? then Mul(c.num, o.den.value) else c.num,
                 Some(if c.den.Some? then Mul(c.den.value, o.num) else o.num)))
  }

  // ---------------------------------------------------------------------
  // Equality, which raises instead of answering false on a shape mismatch.

  /** Python's `a == b` on two units. The only error it raises is
      `UnitError(SameTypeMsg)`, and a scalar against a compound raises. */
  function Eq(a: Val, b: Val): (r: Result<bool>)
    decreases Size(a), 2
    ensures a.U? != b.U? ==> r == Err(UnitError(SameTypeMsg))
    ensures r.Err? ==> r.error == UnitError(SameTypeMsg)
  {
    match a
    case U(u) => UnitEq(u, b)
    case C(c) => CompoundEq(c, b)
  }

  /** `Unit.__eq__`: tag, amount and factor must agree; a compound right
      operand raises. */
  function UnitEq(u: Unit, other: Val): (r: Result<bool>)
    ensures r.Err? <==> other.C?
    ensures r.Err? ==> r.error == UnitError(SameTypeMsg)
    ensures other.U? && u == other.unit ==> r == Ok(true)
    ensures other.U? && u.amount != other.unit.amount ==> r == Ok(false)
  {
    match other
    case C(_) => Err(UnitError(SameTypeMsg))
    case U(o) =>
      Ok(UnitType(u.kind) == UnitType(o.kind) && u.amount == o.amount && BaseUnitsPer(u.kind) == BaseUnitsPer(o.kind))
  }

  /** `CompoundUnit.__eq__`: numerators first (a false there ends the
      comparison), then denominators. */
  function CompoundEq(c: Compound, other: Val): (r: Result<bool>)
    decreases CompoundSize(c), 1
    ensures other.U? ==> r == Err(UnitError(SameTypeMsg))
    ensures other.C? && Eq(c.num, other.comp.num) == Ok(false) ==> r == Ok(false)
    ensures r == Ok(true) ==> other.C? && Eq(c.num, other.comp.num) == Ok(true)
    ensures r.Err? ==> r.error == UnitError(SameTypeMsg)
  {
    match other
    case U(_) => Err(UnitError(SameTypeMsg))
    case C(o) =>
      var sameNum :- Eq(c.num, o.num);
      if !sameNum then Ok(false) else SlotEq(c.den, o.den)
  }

  /** Python's `==` on two denominator slots: `None == None` is true, and a
      unit against `None` (either way round) raises through the unit's
      `__eq__`. */
  function SlotEq(s: Option<Val>, t: Option<Val>): (r: Result<bool>)
    decreases SlotSize(s), 3
    ensures s.None? && t.None? ==> r == Ok(true)
    ensures s.None? != t.None? ==> r == Err(UnitError(SameTypeMsg))
    ensures r.Err? ==> r.error == UnitError(SameTypeMsg)
  {
    match (s, t)
    case (None, None) => Ok(true)
    case (Some(x), Some(y)) => Eq(x, y)
    case _ => Err(UnitError(SameTypeMsg))
  }

  // ---------------------------------------------------------------------
  // Text form. The `%g` rendering of an amount is a parameter.

  /** The text form of a value. A compound without a denominator prints as
      its numerator alone, so a product and its numerator print alike. */
  function Repr(v: Val, fmt: real -> string): (r: string)
    decreases Size(v), 1
    ensures |r| > 0
    ensures v.C? && v.comp.den.None? ==> r == Repr(v.comp.num, fmt)
  {
    match v
    case U(u) => UnitRepr(u, fmt)
    case C(c) => CompoundRepr(c, fmt)
  }

  /** `Unit.__repr__`: amount, a space, the class name. */
  function UnitRepr(u: Unit, fmt: real -> string): (r: string)
    ensures |r| > |Name(u.kind)| && r[|r| - |Name(u.kind)|..] == Name(u.kind)
    ensures |r| > |fmt(u.amount)| && r[..|fmt(u.amount)|] == fmt(u.amount) && r[|fmt(u.amount)|] == ' '
    ensures |r| == |fmt(u.amount)| + 1 + |Name(u.kind)|
  {
    fmt(u.amount) + " " + Name(u.kind)
  }

  /** `CompoundUnit.__repr__`: the numerator alone when there is no
      denominator; otherwise `num/den`, each side in parentheses when it is
      itself compound. */
  function CompoundRepr(c: Compound, fmt: real -> string): (r: string)
    decreases CompoundSize(c), 0
    ensures c.den.None? ==> r == Repr(c.num, fmt)
    ensures c.den.Some? ==> '/' in r
    ensures c.den.Some? && c.num.C? ==> |r| > 0 && r[0] == '('
    ensures c.den.Some? && c.den.value.C? ==> |r| > 0 && r[|r| - 1] == ')'
  {
    match c.den
    case None => Repr(c.num, fmt)
    case Some(d) =>
      var numText := if c.num.C? then "(" + Repr(c.num, fmt) + ")" else Repr(c.num, fmt);
      var denText := if d.C? then "(" + Repr(d, fmt) + ")" else Repr(d, fmt);
      numText + "/" + denText
  }
}
