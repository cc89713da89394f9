/** The vendor header's named integer constants that the core uses. Their
    numeric values are not part of this model: every definition that needs them
    takes a `Table` giving each name its `i32` value, and the properties that
    rely on the names being told apart assume only that the table is
    injective, as the vendor's header makes it. */
module Vendor {
  import opened Ffi

  datatype Constant =
    // terminal configurations
    | CfgDefault | RSE | NRSE | Diff | PseudoDiff
    // pre-scaled units
    | Volts | Amps | DegF | DegC | DegR | Kelvins | Strain | Ohms | Hz
    | Seconds | Meters | Inches | Degrees | Radians | G
    | MetersPerSecondSquared | Newtons | Pounds | PoundsPerSquareInch | Bar
    | Pascals | VoltsPerVolt | MilliVoltsPerVolt | NewtonMeters | InchOunces
    | InchPounds | FootPounds | FromTEDS
    // the unit code of a channel that uses a custom scale
    | FromCustomScale

  /** The values the vendor's header gives the constants. */
  type Table = Constant -> i32

  /** No two constants of the header share a value. */
  ghost predicate Distinct(t: Table) {
    forall a: Constant, b: Constant :: t(a) == t(b) ==> a == b
  }
}
