/** The built-in catalog of concrete unit kinds: each kind is a subclass of
    `Unit` fixing a dimension tag (`unit_type`) and the number of base units
    one of it stands for (`base_units_per`). */
module Catalog {

  datatype Kind =
    | Meter | Kilometer | Centimeter | Inch | Foot
    | Kilogram | Gram | Pound
    | Second | Minute

  /** The class name, which is how a unit's text form names its kind. */
  function Name(k: Kind): (r: string)
    ensures |r| > 0
    ensures '(' !in r && ')' !in r && '/' !in r && ' ' !in r
  {
    match k
    case Meter => "Meter"
    case Kilometer => "Kilometer"
    case Centimeter => "Centimeter"
    case Inch => "Inch"
    case Foot => "Foot"
    case Kilogram => "Kilogram"
    case Gram => "Gram"
    case Pound => "Pound"
    case Second => "Second"
    case Minute => "Minute"
  }

  /** The dimension tag of a kind; only three tags occur in the catalog. */
  function UnitType(k: Kind): (t: string)
    ensures t == "length" || t == "mass" || t == "time"
  {
    match k
    case Meter | Kilometer | Centimeter | Inch | Foot => "length"
    case Kilogram | Gram | Pound => "mass"
    case Second | Minute => "time"
  }

  /** Base units per one unit of the kind. Every catalog kind has a strictly
      positive factor, so dividing by it (in conversion, `+` and `-`) is
      always defined. */
  function BaseUnitsPer(k: Kind): (f: real)
    ensures f > 0.0
  {
    match k
    case Meter => 1.0
    case Kilometer => 1000.0
    case Centimeter => 0.01
    case Inch => 0.0254
    case Foot => 0.3048
    case Kilogram => 1.0
    case Gram => 0.001
    case Pound => 0.45359237
    case Second => 1.0
    case Minute => 60.0
  }

  /** The length kinds are exactly Meter, Kilometer, Centimeter, Inch, Foot. */
  lemma LengthKinds(k: Kind)
    ensures UnitType(k) == "length" <==> k in {Meter, Kilometer, Centimeter, Inch, Foot}
  {
  }

  /** The mass kinds are exactly Kilogram, Gram, Pound. */
  lemma MassKinds(k: Kind)
    ensures UnitType(k) == "mass" <==> k in {Kilogram, Gram, Pound}
  {
  }

  /** The time kinds are exactly Second and Minute. */
  lemma TimeKinds(k: Kind)
    ensures UnitType(k) == "time" <==> k in {Second, Minute}
  {
  }

  /** Meter, Kilogram and Second are the base kinds: the only kinds whose
      factor is one, and one per dimension. */
  lemma BaseKinds(k: Kind)
    ensures BaseUnitsPer(k) == 1.0 <==> k in {Meter, Kilogram, Second}
    ensures BaseUnitsPer(k) == 1.0 ==> forall j: Kind :: UnitType(j) == UnitType(k) && BaseUnitsPer(j) == 1.0 ==> j == k
  {
  }

  /** The documented ratios between kinds of one dimension. */
  lemma KnownRatios()
    ensures BaseUnitsPer(Kilometer) == 1000.0 * BaseUnitsPer(Meter)
    ensures 100.0 * BaseUnitsPer(Centimeter) == BaseUnitsPer(Meter)
    ensures BaseUnitsPer(Minute) == 60.0 * BaseUnitsPer(Second)
    ensures 12.0 * BaseUnitsPer(Inch) == BaseUnitsPer(Foot)
    ensures 1000.0 * BaseUnitsPer(Gram) == BaseUnitsPer(Kilogram)
  {
  }

  /** Dimension tag and factor together identify the kind: no two catalog
      kinds share both. (So comparing the tag and factor of two units, as
      unit equality does, is comparing their kinds.) */
  lemma KindDetermined(a: Kind, b: Kind)
    ensures UnitType(a) == UnitType(b) && BaseUnitsPer(a) == BaseUnitsPer(b) <==> a == b
  {
  }
}
