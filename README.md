# Kinematic calculators

A model of `index.js`, a small JavaScript program with three stateless
calculators and a driver that calls each of them once on fixed values:

- `calcNewVelocity` converts an initial velocity from km/h to m/s, adds
  `acceleration * time`, and converts the sum back to km/h;
- `calcNewDistance` converts an initial distance from km to m and the
  velocity from km/h to m/s, adds `velocity * time`, and converts back to
  km. It has no acceleration term, on purpose;
- `calcRemainingFuel` subtracts `fuelBurnRate * time` from the initial
  fuel, with no clamping at zero.

Each calculator takes one object with three named fields. It first checks
`typeof field !== 'number'` on each field. If any check fails, it throws
one fixed `Error`, "Invalid input parameter types. All parameters must be
numbers."

The model has three modules:

- `JsValues` (`js_values.dfy`) holds the JavaScript values a field can
  hold, `typeof` over them, and `Result`. A `Result` is either the value a
  call returns or the message of the `Error` it throws.
- `Kinematics` (`kinematics.dfy`) holds one parameter record per
  calculator and the three calculators. They keep the source's guard, its
  intermediate conversions and its error message. Their contracts give the
  closed forms:
  - velocity `v + 3.6·a·t`;
  - distance `d + v·t/3600`;
  - fuel `f − r·t`, negative exactly when `r·t > f`.

  The unit conversions the source writes inline (km/h to m/s at
  index.js:28 and :58, m/s to km/h at :34, km to m at :61, m to km at :64)
  are the helper functions `KmhToMs`, `MsToKmh`, `KmToM` and `MToKm`.

  The lemmas beside them show five things. The three guards agree. Zero
  time changes nothing. The km/h↔m/s and km↔m conversions are exact round
  trips. The velocity comes back unchanged exactly when `a·t = 0`. With a
  non-zero rate, every target value is reached at exactly one time, which
  for fuel includes every negative level.
- `Driver` (`driver.dfy`) holds the scenario constants and the driver's
  three calls. Its contract gives the three results: 48880 km/h,
  10000 km and 3200 kg.

Arithmetic is exact `real` arithmetic. The guard at index.js:19-23 tests
only `typeof`, so NaN and ±Infinity pass it, while a missing field (`undefined`), a string, a boolean, `null`,
a BigInt, an object, a symbol or a function are rejected. The model
follows the code.

## Model

| member | source | states |
|---|---|---|
| `JsValues.TypeOf` | index.js:19-23 | `typeof` yields "number" for number values and for nothing else, and "object" for `null` |
| `Kinematics.CalcNewVelocity` | index.js:17-37 | succeeds exactly when all three fields are numbers; otherwise throws the fixed message; on success the new velocity is `v + 3.6·a·t` km/h |
| `Kinematics.CalcNewDistance` | index.js:47-67 | succeeds exactly when all three fields are numbers; otherwise throws the fixed message; on success the new distance is `d + v·t/3600` km, with no acceleration term |
| `Kinematics.CalcRemainingFuel` | index.js:77-91 | succeeds exactly when all three fields are numbers; otherwise throws the fixed message; on success remaining plus burnt fuel equals the initial fuel, and the result is negative exactly when `r·t > f` (no clamping) |
| `Kinematics.ConversionsRoundTrip` | index.js:28-64 | km/h→m/s→km/h (lines 28, 34) and km→m→km (lines 61, 64), the paths the calculators take, are identities; the reverse directions m/s→km/h→m/s and m→km→m are proved too, for completeness |
| `Kinematics.SharedValidation` | index.js:19-85 | the three guards accept exactly the same triples, namely those of three numbers of any sign, and all reject the rest with the same error |
| `Kinematics.ZeroTimeIsIdentity` | index.js:28-90 | with time 0 each calculator returns its initial velocity, distance or fuel unchanged |
| `Kinematics.VelocityUnchangedIffNoGain` | index.js:28-36 | the returned velocity equals the initial one exactly when `acceleration·time = 0` |
| `Kinematics.VelocityReachedAtOneTime` | index.js:28-36 | with non-zero acceleration, every velocity is returned for some time, and only for `t = (w − v)/(3.6·a)` |
| `Kinematics.DistanceReachedAtOneTime` | index.js:58-66 | with non-zero velocity, every distance is returned for some time, and only for `t = 3600·(e − d)/v` |
| `Kinematics.FuelLevelReachedAtOneTime` | index.js:87-90 | with non-zero burn rate, every fuel level is returned for some time, negative levels included, and only for `t = (f − g)/r` |
| `Driver.RunScenario` | index.js:93-118 | on the fixed scenario (v=10000, a=3, t=3600, d=0, f=5000, r=0.5) no call throws, and the results are 48880 km/h, 10000 km and 3200 kg |

## Left out

- Output: the three `console.log` lines and their `toFixed(2)` formatting (index.js:120-123) are standard-output I/O and float-to-string rounding. The driver's results are modelled as exact reals.
- IEEE-754 doubles: rounding in `*1000/3600`, overflow to Infinity and signed zero are not modelled. All arithmetic is exact `real`. In doubles the scenario's velocity may differ from 48880 in its last bits, which `toFixed(2)` hides.
- NaN and ±Infinity: they pass the source's `typeof` guard, but a real-valued model cannot represent them. The model does not claim they are rejected.
- Destructuring a non-object: calling a calculator with `undefined` or `null` instead of an object throws a `TypeError` before the guard runs. The model always receives a parameter record. An absent field is `Undefined`, which the guard rejects, as in the source. Accessor properties with side effects are not modelled either.
- Exceptions: `throw` and termination on an uncaught error are modelled as a `Failure` value carrying the message. The model does not represent control flow or the `Error` object itself.
