/** The three calculators of index.js. Each takes one object with three
    named fields, rejects it unless `typeof` says "number" for every
    field, and otherwise evaluates a unit-converting formula. Velocities
    are in km/h, accelerations in m/s^2, times in s, distances in km,
    fuel in kg and burn rates in kg/s. */
module Kinematics {
  import opened JsValues

  /** The single message every calculator throws on a bad argument. */
  const InvalidParameterTypes: string :=
    "Invalid input parameter types. All parameters must be numbers."

  datatype VelocityParams =
    VelocityParams(initialVelocity: JsValue, acceleration: JsValue, time: JsValue)

  datatype DistanceParams =
    DistanceParams(initialDistance: JsValue, initialVelocity: JsValue, time: JsValue)

  datatype FuelParams =
    FuelParams(initialFuel: JsValue, fuelBurnRate: JsValue, time: JsValue)

  /** km/h to m/s: multiply by 1000 m per km, divide by 3600 s per hour. */
  function KmhToMs(v: real): (r: real) { (v * 1000.0) / 3600.0 }

  /** m/s to km/h. */
  function MsToKmh(v: real): (r: real) { (v * 3600.0) / 1000.0 }

  /** km to m. */
  function KmToM(d: real): (r: real) { d * 1000.0 }

  /** m to km. */
  function MToKm(d: real): (r: real) { d / 1000.0 }

  /** Both unit conversions the calculators use are exact round trips.
      The calculators only take the km/h to m/s to km/h and km to m to km
      paths; the reverse directions are stated for completeness. */
  lemma ConversionsRoundTrip(x: real)
    ensures MsToKmh(KmhToMs(x)) == x && KmhToMs(MsToKmh(x)) == x
    ensures MToKm(KmToM(x)) == x && KmToM(MToKm(x)) == x
  {
  }

  /** New velocity (km/h) after accelerating for `time` seconds: the
      velocity gains 3.6 km/h for every m/s gained, that is
      `3.6 * acceleration * time`. Any non-number field throws. */
  function CalcNewVelocity(p: VelocityParams): (r: Result<real>)
    ensures r.Success? <==> p.initialVelocity.Num? && p.acceleration.Num? && p.time.Num?
    ensures r.Failure? ==> r.error == InvalidParameterTypes
    ensures r.Success? ==>
      r.value == p.initialVelocity.n + 3.6 * p.acceleration.n * p.time.n
  {
    if TypeOf(p.initialVelocity) != "number"
       || TypeOf(p.acceleration) != "number"
       || TypeOf(p.time) != "number"
    then
      Failure(InvalidParameterTypes)
    else
      var initialVelocityInMetersPerSecond := KmhToMs(p.initialVelocity.n);
      var newVelocityInMetersPerSecond :=
        initialVelocityInMetersPerSecond + p.acceleration.n * p.time.n;
      Success(MsToKmh(newVelocityInMetersPerSecond))
  }

  /** New distance (km) after travelling `time` seconds at the constant
      velocity `initialVelocity`: the distance grows by
      `initialVelocity * time / 3600`. There is no acceleration term.
      Any non-number field throws. */
  function CalcNewDistance(p: DistanceParams): (r: Result<real>)
    ensures r.Success? <==> p.initialDistance.Num? && p.initialVelocity.Num? && p.time.Num?
    ensures r.Failure? ==> r.error == InvalidParameterTypes
    ensures r.Success? ==>
      r.value == p.initialDistance.n + p.initialVelocity.n * p.time.n / 3600.0
  {
    if TypeOf(p.initialDistance) != "number"
       || TypeOf(p.initialVelocity) != "number"
       || TypeOf(p.time) != "number"
    then
      Failure(InvalidParameterTypes)
    else
      var initialVelocityInMetersPerSecond := KmhToMs(p.initialVelocity.n);
      var newDistanceInMeters :=
        KmToM(p.initialDistance.n) + initialVelocityInMetersPerSecond * p.time.n;
      Success(MToKm(newDistanceInMeters))
  }

  /** Fuel (kg) left after burning at `fuelBurnRate` for `time` seconds:
      what is left plus what was burnt is what there was. The result is
      not clamped: it is negative exactly when more is burnt than there
      was. Any non-number field throws. */
  function CalcRemainingFuel(p: FuelParams): (r: Result<real>)
    ensures r.Success? <==> p.initialFuel.Num? && p.fuelBurnRate.Num? && p.time.Num?
    ensures r.Failure? ==> r.error == InvalidParameterTypes
    ensures r.Success? ==> r.value + p.fuelBurnRate.n * p.time.n == p.initialFuel.n
    ensures r.Success? ==>
      (r.value < 0.0 <==> p.fuelBurnRate.n * p.time.n > p.initialFuel.n)
  {
    if TypeOf(p.initialFuel) != "number"
       || TypeOf(p.fuelBurnRate) != "number"
       || TypeOf(p.time) != "number"
    then
      Failure(InvalidParameterTypes)
    else
      var fuelConsumed := p.fuelBurnRate.n * p.time.n;
      var remainingFuel := p.initialFuel.n - fuelConsumed;
      Success(remainingFuel)
  }

  /** The three guards accept exactly the same argument triples and throw
      the same error: validation is by type only, so any three numbers,
      negative times and burn rates included, reach the formula. */
  lemma SharedValidation(x: JsValue, y: JsValue, z: JsValue)
    ensures CalcNewVelocity(VelocityParams(x, y, z)).Failure?
            == CalcNewDistance(DistanceParams(x, y, z)).Failure?
            == CalcRemainingFuel(FuelParams(x, y, z)).Failure?
            == !(x.Num? && y.Num? && z.Num?)
    ensures !(x.Num? && y.Num? && z.Num?) ==>
      CalcNewVelocity(VelocityParams(x, y, z)) == Failure(InvalidParameterTypes)
      && CalcNewDistance(DistanceParams(x, y, z)) == Failure(InvalidParameterTypes)
      && CalcRemainingFuel(FuelParams(x, y, z)) == Failure(InvalidParameterTypes)
  {
  }

  /** Over zero seconds nothing changes: each calculator hands back its
      initial quantity. */
  lemma ZeroTimeIsIdentity(v: real, a: real, d: real, f: real, rate: real)
    ensures CalcNewVelocity(VelocityParams(Num(v), Num(a), Num(0.0))) == Success(v)
    ensures CalcNewDistance(DistanceParams(Num(d), Num(v), Num(0.0))) == Success(d)
    ensures CalcRemainingFuel(FuelParams(Num(f), Num(rate), Num(0.0))) == Success(f)
  {
  }

  /** The km/h to m/s to km/h path loses nothing: the velocity comes back
      unchanged exactly when no velocity was gained. */
  lemma VelocityUnchangedIffNoGain(v: real, a: real, t: real)
    ensures CalcNewVelocity(VelocityParams(Num(v), Num(a), Num(t))) == Success(v)
            <==> a * t == 0.0
  {
  }

  /** Under a non-zero acceleration every velocity is reached, at exactly
      one time. */
  lemma VelocityReachedAtOneTime(v: real, a: real, w: real)
    requires a != 0.0
    ensures exists t :: CalcNewVelocity(VelocityParams(Num(v), Num(a), Num(t))) == Success(w)
    ensures forall t :: CalcNewVelocity(VelocityParams(Num(v), Num(a), Num(t))) == Success(w)
                        ==> t == (w - v) / (3.6 * a)
  {
    var t := (w - v) / (3.6 * a);
    var r := CalcNewVelocity(VelocityParams(Num(v), Num(a), Num(t)));
    assert r.value == w;
    assert r == Success(w);
  }

  /** At a non-zero velocity every distance is reached, at exactly one
      time. */
  lemma DistanceReachedAtOneTime(d: real, v: real, e: real)
    requires v != 0.0
    ensures exists t :: CalcNewDistance(DistanceParams(Num(d), Num(v), Num(t))) == Success(e)
    ensures forall t :: CalcNewDistance(DistanceParams(Num(d), Num(v), Num(t))) == Success(e)
                        ==> t == (e - d) * 3600.0 / v
  {
    var t := (e - d) * 3600.0 / v;
    var r := CalcNewDistance(DistanceParams(Num(d), Num(v), Num(t)));
    assert r.value == e;
    assert r == Success(e);
  }

  /** At a non-zero burn rate every fuel level is reached, at exactly one
      time; in particular every negative level is, since nothing clamps
      the result at zero. */
  lemma FuelLevelReachedAtOneTime(f: real, rate: real, g: real)
    requires rate != 0.0
    ensures exists t :: CalcRemainingFuel(FuelParams(Num(f), Num(rate), Num(t))) == Success(g)
    ensures forall t :: CalcRemainingFuel(FuelParams(Num(f), Num(rate), Num(t))) == Success(g)
                        ==> t == (f - g) / rate
  {
    var t := (f - g) / rate;
    var r := CalcRemainingFuel(FuelParams(Num(f), Num(rate), Num(t)));
    assert r.value == g;
    assert r == Success(g);
  }
}
