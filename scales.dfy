/** The units a custom scale can be applied to, and the conversion from a
    raw unit code that `#[derive(FromPrimitive)]` generates
    (`src/scales/mod.rs`). */
module Scales {
  import opened Ffi
  import V = Vendor

  /** `#[repr(i32)]`: each variant's discriminant is a vendor constant. */
  datatype PreScaledUnits =
    | Volts | Amps | DegreesFarenheit | DegreesCelcius | DegreesRankine | Kelvin
    | Strain | Ohms | Hertz | Seconds | Meters | Inches | Degrees | Radians | G
    | MetersPerSecondSquared | Newtons | Pounds | PSI | Bar | Pascals
    | VoltsPerVolt | MilliVoltsPerVolt | NewtonMeters | OunceInches
    | PoundInches | PoundFeet | FromTEDS

  /** The vendor constant each variant is declared equal to. */
  function UnitConstant(u: PreScaledUnits): V.Constant {
    match u
    case Volts => V.Volts
    case Amps => V.Amps
    case DegreesFarenheit => V.DegF
    case DegreesCelcius => V.DegC
    case DegreesRankine => V.DegR
    case Kelvin => V.Kelvins
    case Strain => V.Strain
    case Ohms => V.Ohms
    case Hertz => V.Hz
    case Seconds => V.Seconds
    case Meters => V.Meters
    case Inches => V.Inches
    case Degrees => V.Degrees
    case Radians => V.Radians
    case G => V.G
    case MetersPerSecondSquared => V.MetersPerSecondSquared
    case Newtons => V.Newtons
    case Pounds => V.Pounds
    case PSI => V.PoundsPerSquareInch
    case Bar => V.Bar
    case Pascals => V.Pascals
    case VoltsPerVolt => V.VoltsPerVolt
    case MilliVoltsPerVolt => V.MilliVoltsPerVolt
    case NewtonMeters => V.NewtonMeters
    case OunceInches => V.InchOunces
    case PoundInches => V.InchPounds
    case PoundFeet => V.FootPounds
    case FromTEDS => V.FromTEDS
  }

  /** The variant a vendor constant is the discriminant of, if any. */
  function UnitOfConstant(c: V.Constant): (r: Option<PreScaledUnits>)
    ensures r.Some? ==> UnitConstant(r.value) == c
    ensures r.None? <==> forall u :: UnitConstant(u) != c
  {
    match c
    case Volts => Some(Volts)
    case Amps => Some(Amps)
    case DegF => Some(DegreesFarenheit)
    case DegC => Some(DegreesCelcius)
    case DegR => Some(DegreesRankine)
    case Kelvins => Some(Kelvin)
    case Strain => Some(Strain)
    case Ohms => Some(Ohms)
    case Hz => Some(Hertz)
    case Seconds => Some(Seconds)
    case Meters => Some(Meters)
    case Inches => Some(Inches)
    case Degrees => Some(Degrees)
    case Radians => Some(Radians)
    case G => Some(G)
    case MetersPerSecondSquared => Some(MetersPerSecondSquared)
    case Newtons => Some(Newtons)
    case Pounds => Some(Pounds)
    case PoundsPerSquareInch => Some(PSI)
    case Bar => Some(Bar)
    case Pascals => Some(Pascals)
    case VoltsPerVolt => Some(VoltsPerVolt)
    case MilliVoltsPerVolt => Some(MilliVoltsPerVolt)
    case NewtonMeters => Some(NewtonMeters)
    case InchOunces => Some(OunceInches)
    case InchPounds => Some(PoundInches)
    case FootPounds => Some(PoundFeet)
    case FromTEDS => Some(FromTEDS)
    case _ => None
  }

  /** `u as i32`: the vendor constant the variant is declared with, so that
      no other variant has the same discriminant. */
  function UnitCode(t: V.Table, u: PreScaledUnits): (code: i32)
    ensures V.Distinct(t) ==> forall w :: t(UnitConstant(w)) == code <==> w == u
  {
    assert UnitOfConstant(UnitConstant(u)) == Some(u);
    assert forall w :: UnitOfConstant(UnitConstant(w)) == Some(w);
    t(UnitConstant(u))
  }

  const UNIT_COUNT: nat := 28

  /** The position of a variant in the declaration. */
  function UnitIndex(u: PreScaledUnits): (i: nat)
    ensures i < UNIT_COUNT
  {
    match u
    case Volts => 0
    case Amps => 1
    case DegreesFarenheit => 2
    case DegreesCelcius => 3
    case DegreesRankine => 4
    case Kelvin => 5
    case Strain => 6
    case Ohms => 7
    case Hertz => 8
    case Seconds => 9
    case Meters => 10
    case Inches => 11
    case Degrees => 12
    case Radians => 13
    case G => 14
    case MetersPerSecondSquared => 15
    case Newtons => 16
    case Pounds => 17
    case PSI => 18
    case Bar => 19
    case Pascals => 20
    case VoltsPerVolt => 21
    case MilliVoltsPerVolt => 22
    case NewtonMeters => 23
    case OunceInches => 24
    case PoundInches => 25
    case PoundFeet => 26
    case FromTEDS => 27
  }

  /** The variant declared at position `i`. */
  function UnitAt(i: nat): (u: PreScaledUnits)
    requires i < UNIT_COUNT
  {
    if i == 0 then Volts
    else if i == 1 then Amps
    else if i == 2 then DegreesFarenheit
    else if i == 3 then DegreesCelcius
    else if i == 4 then DegreesRankine
    else if i == 5 then Kelvin
    else if i == 6 then Strain
    else if i == 7 then Ohms
    else if i == 8 then Hertz
    else if i == 9 then Seconds
    else if i == 10 then Meters
    else if i == 11 then Inches
    else if i == 12 then Degrees
    else if i == 13 then Radians
    else if i == 14 then G
    else if i == 15 then MetersPerSecondSquared
    else if i == 16 then Newtons
    else if i == 17 then Pounds
    else if i == 18 then PSI
    else if i == 19 then Bar
    else if i == 20 then Pascals
    else if i == 21 then VoltsPerVolt
    else if i == 22 then MilliVoltsPerVolt
    else if i == 23 then NewtonMeters
    else if i == 24 then OunceInches
    else if i == 25 then PoundInches
    else if i == 26 then PoundFeet
    else FromTEDS
  }

  /** Every variant is found at its position. */
  lemma UnitAtIndex(u: PreScaledUnits)
    ensures UnitAt(UnitIndex(u)) == u
  {
    match u
    case Volts => {}
    case Amps => {}
    case DegreesFarenheit => {}
    case DegreesCelcius => {}
    case DegreesRankine => {}
    case Kelvin => {}
    case Strain => {}
    case Ohms => {}
    case Hertz => {}
    case Seconds => {}
    case Meters => {}
    case Inches => {}
    case Degrees => {}
    case Radians => {}
    case G => {}
    case MetersPerSecondSquared => {}
    case Newtons => {}
    case Pounds => {}
    case PSI => {}
    case Bar => {}
    case Pascals => {}
    case VoltsPerVolt => {}
    case MilliVoltsPerVolt => {}
    case NewtonMeters => {}
    case OunceInches => {}
    case PoundInches => {}
    case PoundFeet => {}
    case FromTEDS => {}
  }

  /** The first variant from position `i` on, in declaration order, whose
      discriminant is `code`. */
  function FirstWithCode(t: V.Table, code: i32, i: nat): (r: Option<PreScaledUnits>)
    requires i <= UNIT_COUNT
    ensures r.Some? ==> i <= UnitIndex(r.value) && UnitCode(t, r.value) == code
    ensures r.None? <==> forall j :: i <= j < UNIT_COUNT ==> UnitCode(t, UnitAt(j)) != code
    decreases UNIT_COUNT - i
  {
    if i == UNIT_COUNT then None
    else if UnitCode(t, UnitAt(i)) == code then Some(UnitAt(i))
    else FirstWithCode(t, code, i + 1)
  }

  /** The derived `PreScaledUnits::from_i32`, which compares `code` with each
      discriminant in declaration order: the variant whose discriminant is
      `code`, or `None` when no variant has it. */
  function FromI32(t: V.Table, code: i32): (r: Option<PreScaledUnits>)
    ensures r.Some? ==> UnitCode(t, r.value) == code
    ensures r.None? <==> forall u :: UnitCode(t, u) != code
  {
    var r := FirstWithCode(t, code, 0);
    assert r.None? ==> forall u :: UnitCode(t, u) != code by {
      forall u ensures r.None? ==> UnitCode(t, u) != code {
        UnitAtIndex(u);
      }
    }
    r
  }

  /** The discriminants are pairwise distinct, as the compiler demands of a
      `#[repr(i32)]` enum, when the vendor's constants are. */
  lemma DiscriminantsDistinct(t: V.Table, u: PreScaledUnits, w: PreScaledUnits)
    requires V.Distinct(t)
    requires UnitCode(t, u) == UnitCode(t, w)
    ensures u == w
  {
    assert UnitOfConstant(UnitConstant(u)) == Some(u);
    assert UnitOfConstant(UnitConstant(w)) == Some(w);
  }

  /** Converting a variant's discriminant back gives that variant. */
  lemma FromI32RoundTrip(t: V.Table, u: PreScaledUnits)
    requires V.Distinct(t)
    ensures FromI32(t, UnitCode(t, u)) == Some(u)
  {
    var r := FromI32(t, UnitCode(t, u));
    DiscriminantsDistinct(t, r.value, u);
  }
}
