/** The top level of index.js: fixed scenario constants fed once into
    each calculator. */
module Driver {
  import opened JsValues
  import opened Kinematics

  const InitialVelocity: real := 10000.0  // km/h
  const Acceleration: real := 3.0         // m/s^2
  const Time: real := 3600.0              // s (one hour)
  const InitialDistance: real := 0.0      // km
  const InitialFuel: real := 5000.0       // kg
  const FuelBurnRate: real := 0.5         // kg/s

  /** The three values the driver goes on to report. */
  datatype Report = Report(newVelocity: Result<real>, newDistance: Result<real>, remainingFuel: Result<real>)

  /** The driver's three calls. None of them throws; they give
      48880 km/h, 10000 km and 3200 kg. */
  function RunScenario(): (r: Report)
    ensures r == Report(Success(48880.0), Success(10000.0), Success(3200.0))
  {
    var newVelocity := CalcNewVelocity(VelocityParams(Num(InitialVelocity), Num(Acceleration), Num(Time)));
    var newDistance := CalcNewDistance(DistanceParams(Num(InitialDistance), Num(InitialVelocity), Num(Time)));
    var remainingFuel := CalcRemainingFuel(FuelParams(Num(InitialFuel), Num(FuelBurnRate), Num(Time)));
    Report(newVelocity, newDistance, remainingFuel)
  }
}
