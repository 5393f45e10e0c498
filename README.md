# bad_units in Dafny

A model of `bad_units`, a small library of physical quantities. A **scalar
unit** is a concrete kind (Meter, Second, ...) with a non-negative amount. A
**compound unit** has a numerator and an optional denominator, each a scalar
or another compound. Both classes define `+`, `-`, `*`, `/`, `==` and a text
form; scalar units also convert to another kind (`to`). The kinds come from a fixed catalog
that gives each one a dimension tag (`unit_type`) and a factor
(`base_units_per`).

Everything in the library is pure, so the model is made of datatypes,
functions and lemmas:

| file | module | contents |
|---|---|---|
| `outcomes.dfy` | `Outcomes` | the two exception classes the code raises (`UnitError`, `TypeError`), `Option`, `Result` |
| `catalog.dfy` | `Catalog` | `Kind` (the ten catalog classes), `Name`, `UnitType`, `BaseUnitsPer`, facts about the catalog |
| `units.dfy` | `Units` | `Unit`, `Val = U(Unit) \| C(Compound)`, `Compound(num, den)`; one function per operator method |
| `scalar_laws.dfy` | `ScalarLaws` | conversion and scalar `+`/`-` laws, scalar equality |
| `compound_laws.dfy` | `CompoundLaws` | the compatibility guard, compound `+`/`-`, the tree rules of `*` and `/`, the non-negative-amount invariant |
| `equality_laws.dfy` | `EqualityLaws` | what `==` decides and when it raises |
| `repr_laws.dfy` | `ReprLaws` | the text form's slashes and parentheses |

How the Python maps onto the model:

- Python picks the method by the operand's class. In the model, `Add`, `Sub`, `Mul`, `Div` and `Eq` dispatch on the left operand. They call `UnitAdd`/`CompoundAdd` and so on, one function per method (`Unit.__add__`, `CompoundUnit.__add__`, ...). A call on a slot (`self.numerator + other.numerator`) goes back through the dispatcher, as it does in Python.
- A raised exception is an `Err` carrying the class and the code's message. `Mul` and `Div` never raise on unit operands, so they return a plain `Val`.
- `CompoundUnit.__init__` is the `Compound` constructor. `Unit.__init__` is `MakeUnit`, which rejects a negative amount. `Valid` says every unit in a value has a non-negative amount; `AddKeepsValid` and its siblings show the operators keep that invariant.
- `if self.denominator` means "the denominator is present", because neither class defines `__bool__` or `__len__`. It is written `den.Some?`.
- Amounts and factors are `real`. Every equality the library relies on holds exactly.

The model follows the code in these places, even where its comments or a
ratio reading of the library would suggest otherwise:

- `Unit * Unit` builds `CompoundUnit(self, other)`: the right operand goes in the denominator slot. The comment at `bad_units/module.py:55` says the denominator is `None`. So a scalar product is the same tree as the scalar quotient (`UnitProductIsRatio`).
- `_check_compatibility` requires all four slots to be scalar units. A compound without a denominator can therefore never be added to or subtracted from a compound (`ProductsNeverCombine`). The "one has denominator, other does not" branch can never be taken (`ShapeBranchUnreachable`).
- `Unit - Compound` wraps the unit as `CompoundUnit(self)`, so it always raises `TypeError` (`UnitMinusCompoundFails`). `Unit + Compound` instead hands the work to `Compound + Unit`, which can succeed only when the compound has no denominator, by adding the unit to its numerator (`CompoundWithUnit`).
- Compound `+`/`-` keeps the left denominator. It checks only the dimension of the right denominator, never its amount (`OtherDenominatorAmountIgnored`).
- `==` raises `UnitError` instead of answering false when a scalar meets a compound or a missing denominator, including Python's reflected `None == unit`. Numerators are compared first, and a false there ends the comparison.
- The library raises only `UnitError` and `TypeError`; the model has no finer error kinds.

## Model

| member | source | states |
|---|---|---|
| `Catalog.UnitType` | bad_units/builtin_units.py:4-51 | every catalog kind is tagged "length", "mass" or "time" |
| `Catalog.BaseUnitsPer` | bad_units/builtin_units.py:4-51 | every catalog kind has a strictly positive factor, so the divisions in `to`, `+` and `-` are defined |
| `Catalog.LengthKinds` | bad_units/builtin_units.py:4-26 | a kind has dimension "length" iff it is Meter, Kilometer, Centimeter, Inch or Foot |
| `Catalog.MassKinds` | bad_units/builtin_units.py:29-41 | a kind has dimension "mass" iff it is Kilogram, Gram or Pound |
| `Catalog.TimeKinds` | bad_units/builtin_units.py:44-51 | a kind has dimension "time" iff it is Second or Minute |
| `Catalog.BaseKinds` | bad_units/builtin_units.py:4-46 | factor 1 iff Meter, Kilogram or Second; each is the only such kind in its dimension |
| `Catalog.KnownRatios` | bad_units/builtin_units.py:9-51 | 1 Kilometer = 1000 Meter, 100 Centimeter = 1 Meter, 1 Minute = 60 Second, 12 Inch = 1 Foot, 1000 Gram = 1 Kilogram |
| `Catalog.KindDetermined` | bad_units/builtin_units.py:4-51 | two kinds with the same tag and factor are the same kind |
| `Units.MakeUnit` | bad_units/module.py:14-17 | construction succeeds iff the amount is non-negative, else `UnitError` |
| `Units.To` | bad_units/module.py:19-24 | compound target: `TypeError`; other dimension: `UnitError`; otherwise the result has the target's kind, the same base quantity and a non-negative amount |
| `Units.UnitAdd` | bad_units/module.py:26-36 | scalar + scalar: `UnitError` iff the dimensions differ; else the left kind holding the sum of the base quantities |
| `Units.UnitSub` | bad_units/module.py:38-48 | scalar - scalar: `UnitError` on other dimension; else succeeds iff left base quantity >= right; result in the left kind holding the difference |
| `Units.Add` | bad_units/module.py:26-34 | `a + b` is a scalar exactly when both operands are scalars |
| `Units.CompoundAdd` | bad_units/module.py:102-114 | compound + scalar with a denominator raises `UnitError`; a failed guard raises its error; a sum keeps the left denominator |
| `Units.Sub` | bad_units/module.py:38-46 | `a - b` is a scalar exactly when both operands are scalars |
| `Units.CompoundSub` | bad_units/module.py:116-128 | compound - scalar with a denominator raises `UnitError`; a failed guard raises its error; a difference keeps the left denominator |
| `Units.CheckCompatibility` | bad_units/module.py:88-100 | passing means the other is compound, all four slots are scalars and numerators and denominators share their dimensions; it raises only `TypeError` or `UnitError` |
| `Units.Mul` | bad_units/module.py:53-64 | every product is a compound unit |
| `Units.UnitMul` | bad_units/module.py:53-62 | scalar * scalar is the quotient `u / other`; scalar * compound puts `u / other.numerator` over the compound's denominator |
| `Units.CompoundMul` | bad_units/module.py:139-151 | the new numerator is the left numerator times the right one (or the right scalar), in that order; a scalar keeps the denominator; between compounds a denominator exists iff either side has one, and two are multiplied |
| `Units.Div` | bad_units/module.py:50-51 | every quotient is a compound unit with a denominator |
| `Units.UnitDiv` | bad_units/module.py:50-51 | scalar / anything stores the scalar over the unchecked divisor and keeps all their scalar units |
| `Units.CompoundDiv` | bad_units/module.py:130-135 | compound / scalar: numerator kept, denominator times the scalar (or the scalar); compound / compound cross-multiplies, each product only when the slot exists |
| `Units.Eq` | bad_units/module.py:69-76 | scalar against compound raises; the only error `==` ever raises is `UnitError("Units must be of the same type")` |
| `Units.UnitEq` | bad_units/module.py:69-76 | raises exactly when the other is compound; a scalar equals itself and differs from one with another amount |
| `Units.CompoundEq` | bad_units/module.py:162-168 | a scalar right operand raises; unequal numerators give false; true needs equal numerators |
| `Units.SlotEq` | bad_units/module.py:167 | `None == None` is true; present against missing raises `UnitError` |
| `Units.Repr` | bad_units/module.py:66-67 | the text is non-empty; a compound without a denominator prints exactly as its numerator |
| `Units.UnitRepr` | bad_units/module.py:66-67 | exactly the amount's text, one space and the class name, with nothing else in between |
| `Units.CompoundRepr` | bad_units/module.py:155-160 | without a denominator the numerator's text alone; with one the text contains a slash, starts with `(` when the numerator is compound and ends with `)` when the denominator is |
| `Catalog.Name` | bad_units/builtin_units.py:4-51 | every class name is non-empty and holds no parenthesis, slash or space |
| `ScalarLaws.ConvertRoundTrip` | bad_units/module.py:19-24 | converting to a same-dimension kind and back returns the original unit exactly |
| `ScalarLaws.AddThenSubtract` | bad_units/module.py:26-44 | `(a + b) - b == a` for scalars of one dimension |
| `ScalarLaws.SubtractThenAdd` | bad_units/module.py:26-44 | a successful `a - b` is undone by `+ b` |
| `ScalarLaws.AddCommutesInBaseUnits` | bad_units/module.py:26-32 | `a + b` and `b + a` hold the same quantity; converting one into the other's kind gives the other |
| `ScalarLaws.UnitEqIsIdentity` | bad_units/module.py:69-76 | scalar `==` is true exactly for the same kind and amount, and never raises between scalars |
| `ScalarLaws.MeterPlusCentimeters` | tests/test1.py:8 | `Meter(1) + Centimeter(100)` is `Meter(2)` and compares equal to it |
| `ScalarLaws.CrossDimensionFails` | bad_units/module.py:22-41 | `+`, `-` and `to` across dimensions raise `UnitError` |
| `CompoundLaws.CompatibilityCharacterized` | bad_units/module.py:88-100 | the guard passes iff the other is compound, all four slots are scalars and numerator and denominator dimensions match; `TypeError` iff the other is a scalar or a slot is missing or compound |
| `CompoundLaws.ShapeBranchUnreachable` | bad_units/module.py:96-100 | the "one has denominator" error is never raised |
| `CompoundLaws.ProductsNeverCombine` | bad_units/module.py:88-93 | compound ± compound raises `TypeError` when either has no denominator |
| `CompoundLaws.UnitPlusCompound` | bad_units/module.py:33-34 | scalar + compound equals compound + scalar; `UnitError` when the compound has a denominator |
| `CompoundLaws.UnitMinusCompoundFails` | bad_units/module.py:45-46 | scalar - compound always raises `TypeError` |
| `CompoundLaws.CompoundWithUnit` | bad_units/module.py:102-121 | compound ± scalar: `UnitError` with a denominator; without one, the numerator absorbs the scalar and the result has no denominator |
| `CompoundLaws.ProductPlusUnit` | bad_units/module.py:33-34 | `Compound(n) + u` succeeds with the base quantities summed in `n`'s kind, and `u + Compound(n)` gives the same result, so it is in `n`'s kind, not the left operand's |
| `CompoundLaws.CompoundPlusCompound` | bad_units/module.py:108-114 | after the guard, numerators sum in base units in the left kind; the left denominator is kept |
| `CompoundLaws.CompoundMinusCompound` | bad_units/module.py:122-128 | after the guard, succeeds iff left numerator >= right in base units; else `UnitError`; left denominator kept |
| `CompoundLaws.OtherDenominatorAmountIgnored` | bad_units/module.py:94-98 | the right denominator's amount does not affect compound `+` or `-` |
| `CompoundLaws.UnitMulKeepsFactors` | bad_units/module.py:53-62 | scalar * value keeps both operands' scalar units |
| `CompoundLaws.MulKeepsFactors` | bad_units/module.py:139-151 | `*` neither drops nor duplicates a scalar unit (multiset of factors is the sum) |
| `CompoundLaws.DivKeepsFactors` | bad_units/module.py:130-135 | `/` neither drops nor duplicates a scalar unit |
| `CompoundLaws.UnitProductIsRatio` | bad_units/module.py:50-56 | scalar * scalar is the same tree as scalar / scalar: left numerator, right denominator |
| `CompoundLaws.ProductOrderKept` | bad_units/module.py:53-56 | `a * b` and `b * a` are equal only when `a == b`: operand order is kept |
| `CompoundLaws.UnitTimesCompound` | bad_units/module.py:57-62 | scalar * compound is `(u / other.numerator)` over the compound's denominator: the other numerator is nested as a denominator, not multiplied |
| `CompoundLaws.CompoundTimesUnit` | bad_units/module.py:140-141 | compound * scalar: the numerator becomes `numerator * scalar`, in that order, and holds both operands' scalar units; the denominator is kept |
| `CompoundLaws.CompoundTimesCompound` | bad_units/module.py:142-151 | the numerator is `left.numerator * right.numerator`; the denominator is the product of both denominators, the one that exists, or none; the scalar units of each slot are the two sides' |
| `CompoundLaws.CompoundOverUnit` | bad_units/module.py:131-132 | compound / scalar: numerator kept; the denominator becomes `denominator * scalar`, or the scalar when there was none; it holds the old denominator's scalar units and the scalar |
| `CompoundLaws.CompoundOverCompound` | bad_units/module.py:133-135 | cross-multiplication in operand order: numerator `left.numerator * right.denominator` (or the left numerator), denominator `left.denominator * right.numerator` (or the right numerator), with their scalar units |
| `CompoundLaws.ChainedDivisionNests` | bad_units/module.py:130-132 | `(m / s1) / s2` is `CompoundUnit(m, CompoundUnit(s1, s2))`: the divisor becomes the denominator of the denominator |
| `CompoundLaws.MeterPerSecond` | tests/test1.py:11 | `Meter(10) / Second(2)` is `CompoundUnit(Meter(10), Second(2))` |
| `CompoundLaws.RightNestedDivision` | tests/test1.py:12 | `(Meter(10) / Second(2)) / Second(5)` is `CompoundUnit(Meter(10), Second(2) * Second(5))` |
| `CompoundLaws.AddKeepsValid` | bad_units/module.py:26-114 | `+` on valid values yields a valid value |
| `CompoundLaws.SubKeepsValid` | bad_units/module.py:38-128 | `-` on valid values yields a valid value |
| `CompoundLaws.MulDivKeepValid` | bad_units/module.py:50-62 | `*` and `/` of valid values are valid |
| `EqualityLaws.EqReflexive` | bad_units/module.py:162-168 | every value equals itself |
| `EqualityLaws.EqSound` | bad_units/module.py:69-76 | when `==` answers, it answers structural equality |
| `EqualityLaws.EqTotalOnSameShape` | bad_units/module.py:162-168 | `==` never raises between values of the same shape |
| `EqualityLaws.EqRaisesOnlyOnShapeMismatch` | bad_units/module.py:70-71 | `==` raises only on a shape mismatch (a corollary of `Units.Eq` and `EqTotalOnSameShape`, stated together) |
| `EqualityLaws.EqSymmetric` | bad_units/module.py:162-168 | `a == b` and `b == a` answer or raise alike |
| `EqualityLaws.MismatchRaises` | bad_units/module.py:163-164 | scalar vs compound raises either way round; so does a present vs missing denominator |
| `EqualityLaws.NumeratorsDecideFirst` | bad_units/module.py:165-167 | unequal numerators give false even when the denominators could not be compared |
| `EqualityLaws.CompoundTestsHold` | tests/test1.py:11-12 | both compound assertions of the unit test compare equal |
| `ReprLaws.UnitReprPlain` | bad_units/module.py:66-67 | a scalar's text has no parentheses or slash |
| `ReprLaws.UnitReprUnbracketed` | bad_units/module.py:66-67 | a scalar's text neither starts with `(` nor ends with `)` |
| `ReprLaws.ReprParenthesised` | bad_units/module.py:158-160 | with a denominator, the text starts with `(` iff the numerator is compound and ends with `)` iff the denominator is compound |
| `ReprLaws.ReprShape` | bad_units/module.py:155-160 | a value's text has one slash per denominator and balanced parentheses |

## Left out

- Arbitrary non-unit Python operands: the `TypeError` branches at bad_units/module.py:35-36, 47-48, 63-64, 136-137 and 152-153 cannot be reached because `Val` is closed. The conversion target is the one exception: a compound target is modelled (`To`'s `TypeError`).
- Floating point: amounts and factors are exact reals. IEEE rounding (for example `0.01` not being exactly 1/100) is not modelled. Neither are NaN and infinity: `Meter(float('nan'))` passes the `amount < 0` check at bad_units/module.py:15 and then compares unequal to itself at bad_units/module.py:74, which `EqualityLaws.EqReflexive` does not reflect; an infinite amount is likewise accepted and makes `inf - inf` a NaN.
- `%g` formatting of an amount (bad_units/module.py:67): it is the parameter `fmt` of `Repr`. The text lemmas assume only that it writes no parentheses or slash.
- The abstract base class `Unit` with tag `''` and factor `0.0` (bad_units/module.py:10-12): it is not a catalog kind, so it is not a `Kind`. Dividing by its zero factor would raise `ZeroDivisionError`.
- Python class machinery (one subclass per kind, `other.__class__(...)`): replaced by `Kind` and the `Unit(kind, amount)` constructor. The default amount `1` of `Unit.__init__` is not modelled, and `int` and `float` amounts are both `real`.
- Units.Mul: its own contract says only that the result is a compound. The top-level slots of each case, in operand order, are stated by `Units.UnitMul`, `Units.CompoundMul` and the `CompoundLaws` lemmas; deeper nesting is stated through those slot equations, and the scalar units kept by `MulKeepsFactors`.
- Units.Div: its own contract says only that the result is a compound with a denominator. The top-level slots of each case are stated by `Units.UnitDiv`, `Units.CompoundDiv`, `CompoundOverUnit` and `CompoundOverCompound`, and the scalar units kept by `DivKeepsFactors`.
