# BulletPhysic core in Dafny

A model of the simulation core of BulletPhysic, a C++ point-mass ballistics engine. The model covers the following:

- the `Vec3` vector type and `lerp`;
- the `PhysicsContext` that environment providers fill in and forces read;
- rigid bodies and projectile bodies with their specifications;
- the Mach-dependent drag curves that the engine reads from data files;
- the force generators: gravity, three drag variants, atmospheric drag, wind drag, Coriolis, and the spin-drift pair (lift and Magnus);
- the environment providers: atmosphere, humidity, wind, geographic;
- the force registry;
- the physics world that runs environments then forces;
- the Euler and RK4 integrators;
- box and ground colliders with the all-pairs collision detector.

Floating-point numbers are modelled as reals. The C math library (`sqrt`, `exp`, `pow`, `sin`, `cos`) is left uninterpreted. So are the value of a division by zero, the geodetic gravity routine, and the constants the code names but that `src/Constants.h` does not declare. All of these are fields of a `Platform` value that every computation receives. `Platform.Sound()` lists the few facts about the math functions that proofs rely on, such as `exp(x) > 0` and `sqrt(x)^2 == x` for `x >= 0`.

Classes whose fields the source updates in place are Dafny classes:

- `PhysicsContext`;
- `RigidBody` (one `Body` class, which is a projectile when it holds specs);
- `DragCurve`;
- `ForceRegistry`;
- `PhysicsWorld`;
- `BoxCollider` and `GroundCollider`;
- `CollisionDetection`;
- the compound assignments of `Vec3`.

Forces, environments, drag laws and atmosphere models are interfaces with several implementations in the source. They are modelled as datatypes, one constructor per implementation, and their `apply`/`update` become functions that say what is added to the force accumulator or written to the context. Methods then perform the update on the mutable objects.

The layout of the projectile specifications follows `src/dynamics/PhysicsBody.h`: rifling, spin rate and moment of inertia live inside `SpinSpecs`. `src/dynamics/RigidBody.cpp` reads them as top-level fields of the specs, which does not compile against that header.

The `ForceRegistry` in `src/dynamics/forces/ForceRegistry.cpp` calls `apply(rb, dt)` without a context. The model passes forces registered there an empty context, so context-reading forces fall back to their defaults in the registry and see the environment only in the `PhysicsWorld`.

## Model

| member | source | states |
|---|---|---|
| Vectors.Divide | src/math/Vec3.cpp:25-28 | dividing by a non-zero scalar is undone by multiplying by it |
| Vectors.AddThenSub | src/math/Vec3.cpp:13-20 | `(a + b) - b == a` and `(a - b) + b == a` |
| Vectors.ScaleLeftCommutes | src/math/Vec3.cpp:52-55 | `s * v` is `v * s`, componentwise `s * v_i` |
| Vectors.CrossPerpendicular | src/math/Vec3.h:10-28 | the cross product used by the Coriolis and spin forces is perpendicular to both arguments |
| Vectors.CrossWithZero | src/math/Vec3.h:10-28 | the cross product with the zero vector is zero |
| Vectors.DotScale | src/math/Vec3.h:27 | the dot product is linear in a scaled argument |
| Vectors.LengthSquaredScale | src/math/Vec3.cpp:21-24 | scaling by `s` scales the squared length by `s^2` |
| Vectors.LengthSquaredNonNegative | src/math/Vec3.h:25 | the squared length is never negative |
| Vectors.LengthFacts | src/math/Vec3.h:25 | under a sound square root, `length()` is non-negative and squares to the squared length |
| Vectors.MutableVec3.constructor | src/math/Vec3.cpp:10-11 | the new vector holds the given components |
| Vectors.MutableVec3.AddAssign | src/math/Vec3.cpp:30-36 | `+=` leaves the old value plus the argument |
| Vectors.MutableVec3.SubAssign | src/math/Vec3.cpp:37-43 | `-=` leaves the old value minus the argument |
| Vectors.MutableVec3.ScaleAssign | src/math/Vec3.cpp:44-50 | `*=` leaves the old value scaled by the argument |
| Algorithms.Abs | src/dynamics/forces/drag/DragModel.cpp:56-60 | `std::abs`: non-negative, and equal to the argument or its negation |
| Algorithms.LerpEndpoints | src/math/Algorithms.h:10-15 | `lerp` gives `y1` at `t = 0` and `y2` at `t = 1` |
| Algorithms.LerpConstant | src/math/Algorithms.h:10-15 | interpolating between equal values gives that value |
| Algorithms.LerpBetween | src/math/Algorithms.h:10-15 | for `t` in [0, 1] the result lies between the end values, whichever is larger |
| Context.PhysicsContext.constructor | src/dynamics/PhysicsContext.h:15-27 | a new context has every one of its nine optional fields empty |
| Context.PhysicsContext.Reset | src/dynamics/PhysicsContext.h:29-42 | `reset` empties every field whatever was set, so it is idempotent |
| Context.EmptyIsUnique | src/dynamics/PhysicsContext.h:29-42 | a state has every field empty exactly when it is the reset state |
| Bodies.DefaultSpinSpecs | src/dynamics/PhysicsBody.h:59-70 | default spin specs carry the three default aerodynamic coefficients and nothing else |
| Bodies.MassOnlySpecs | src/dynamics/PhysicsBody.h:72-85 | specs built from a mass alone have every optional field empty |
| Bodies.CoercedMass | src/dynamics/RigidBody.cpp:12-15 | the stored mass is always positive: the argument when positive, otherwise 1 |
| Bodies.CrossSectionArea | src/dynamics/RigidBody.cpp:78-82 | the area `PI d^2 / 4` is never negative |
| Bodies.MomentOfInertiaX | src/dynamics/RigidBody.cpp:84-88 | `m d^2 / 8` is non-negative for a non-negative mass |
| Bodies.SpinRate | src/dynamics/RigidBody.cpp:90-94 | the spin rate times `twist * d` is `2 PI V` whenever `twist * d` is non-zero |
| Bodies.DeriveSpecs | src/dynamics/RigidBody.cpp:58-71 | a missing area is derived from the diameter, and a missing moment of inertia from mass and diameter. Given values and all other fields are kept, and without a diameter the spin specs are unchanged |
| Bodies.DeriveSpecsIdempotent | src/dynamics/RigidBody.cpp:58-71 | deriving specs a second time changes nothing |
| Bodies.WithInitialSpinRate | src/dynamics/RigidBody.cpp:96-106 | the spin rate is filled in exactly when it is unknown, the barrel is rifled, the diameter known and the speed above 1e-3. Otherwise the specs are unchanged |
| Bodies.SpinRateSetOnce | src/dynamics/RigidBody.cpp:96-106 | once a spin rate is known, no later velocity changes it |
| Bodies.VelocityFromAngles | src/dynamics/RigidBody.cpp:27-38 | zero elevation and azimuth aim the velocity along +z at the given speed |
| Bodies.LaunchSpeed | src/dynamics/RigidBody.cpp:27-38 | at any elevation and azimuth the launch velocity has the requested speed |
| Bodies.Body.constructor | src/dynamics/PhysicsBody.h:101 | a new rigid body has mass 1, is at rest at the origin with no force, and is not a projectile |
| Bodies.Body.DefaultProjectile | src/dynamics/PhysicsBody.h:138 | a default projectile is a default body whose specs hold only the mass 1 |
| Bodies.Body.Projectile | src/dynamics/RigidBody.cpp:58-71 | a projectile's mass goes through `setMass` and its specs are the derived specs |
| Bodies.Body.ProjectileSpecsOf | src/dynamics/PhysicsBody.h:144 | `getProjectileSpecs` returns the stored specs |
| Bodies.Body.SetMass | src/dynamics/RigidBody.cpp:12-15 | the mass becomes the coerced mass, stays positive, and nothing else changes |
| Bodies.Body.SetPosition | src/dynamics/RigidBody.cpp:17-20 | only the position changes |
| Bodies.Body.SetVelocity | src/dynamics/PhysicsBody.h:147-151 | the velocity changes. A projectile then initialises its spin rate from the new speed `|v|` |
| Bodies.Body.SetVelocityFromAngles | src/dynamics/PhysicsBody.h:152-156 | the velocity comes from the angles. A projectile initialises its spin rate from the given speed |
| Bodies.Body.SetState | src/dynamics/RigidBody.cpp:50-54 | position and velocity change; the spin rate is not initialised |
| Bodies.Body.AddForce | src/dynamics/RigidBody.cpp:40-43 | the accumulator grows by the force and the rest of the state is unchanged |
| Bodies.Body.ClearForces | src/dynamics/RigidBody.cpp:45-48 | the accumulator becomes zero and the rest of the state is unchanged |
| Bodies.Body.Clone | src/dynamics/RigidBody.cpp:73-76 | a fresh body equal to this one, specs included |
| Bodies.Body.CopyAsRigidBody | src/dynamics/PhysicsBody.h:102 | copying through the base class gives a fresh body without the projectile specs |
| DragModels.ModelFilename | src/dynamics/forces/drag/DragModel.cpp:112-133 | the file name is empty exactly for CUSTOM |
| DragModels.ModelFilenameInjective | src/dynamics/forces/drag/DragModel.h:22-36 | different curve families read different files |
| DragModels.LoadedTable | src/dynamics/forces/drag/DragModel.cpp:24-43 | a file yields at most one (Mach, Cd) pair per line |
| DragModels.ColumnsAppend | src/dynamics/forces/drag/DragModel.cpp:38-42 | appending rows to a table appends to both columns, as the paired `push_back`s do |
| DragModels.ColumnsDetermineTable | src/dynamics/forces/drag/DragModel.h:62-63 | the two parallel columns determine the table, so splitting it loses nothing |
| DragModels.LoadedTableAppend | src/dynamics/forces/drag/DragModel.cpp:24-43 | reading two runs of lines yields the concatenation of their tables |
| DragModels.SkippedLineIgnored | src/dynamics/forces/drag/DragModel.cpp:27-31 | an empty or `#` line anywhere contributes nothing |
| DragModels.ParsedLineAppends | src/dynamics/forces/drag/DragModel.cpp:33-42 | a line that parses and is not skipped appends exactly its pair |
| DragModels.Bracket | src/dynamics/forces/drag/DragModel.cpp:88-93 | the search stops at the first index whose successor is not below `mach` |
| DragModels.BracketSurrounds | src/dynamics/forces/drag/DragModel.cpp:88-96 | inside the table the two points found surround `mach` |
| DragModels.FractionInUnit | src/dynamics/forces/drag/DragModel.cpp:102 | the interpolation parameter lies in (0, 1] |
| DragModels.CurveCdBounded | src/dynamics/forces/drag/DragModel.cpp:71-104 | `getCd` never leaves the range of the tabulated coefficients |
| DragModels.CurveCdAtKnot | src/dynamics/forces/drag/DragModel.cpp:71-104 | on strictly increasing Mach numbers every tabulated point is reproduced exactly |
| DragModels.CurveCdExample | src/dynamics/forces/drag/DragModel.cpp:71-104 | concrete values: interpolation halfway, clamping on both sides, the 0.47 fallback for an empty curve |
| DragModels.DragCurve.constructor | src/dynamics/forces/drag/DragModel.h:61-63 | a new curve has both columns empty |
| DragModels.DragCurve.LoadFromFile | src/dynamics/forces/drag/DragModel.cpp:13-46 | an unopenable file leaves the curve alone and returns false. Otherwise both columns become the file's table, and the result says whether it is non-empty |
| DragModels.DragCurve.FindClosestIndex | src/dynamics/forces/drag/DragModel.cpp:48-69 | the index of a nearest Mach number, the first among ties; 0 for an empty curve |
| DragModels.DragCurve.GetCd | src/dynamics/forces/drag/DragModel.cpp:71-104 | returns the curve's value at `mach`: fallback, clamping or interpolation between the bracketing points |
| DragModels.DragCurve.GetCdNearest | src/dynamics/forces/drag/DragModel.cpp:106-110 | returns the coefficient of the first tabulated point whose Mach number is nearest: no point is nearer, and every earlier point is strictly farther |
| DragModels.NewStandardDragModel | src/dynamics/forces/drag/DragModel.cpp:135-143 | the model keeps its family; an unopenable file leaves its curve empty |
| DragModels.CustomModelConstant | src/dynamics/forces/drag/DragModel.h:91-96 | a custom model returns its coefficient at every Mach number |
| DragModels.StandardModelFallback | src/dynamics/forces/drag/DragModel.cpp:135-148 | a standard model whose file does not open answers 0.47 everywhere |
| DragModels.StandardModelBounded | src/dynamics/forces/drag/DragModel.cpp:145-148 | a loaded standard model answers within the range of its file's coefficients |
| ConstantDrag.RelativeVelocity | src/dynamics/forces/Drag.h:24-30 | the relative velocity plus the wind is the body velocity; without wind it is the velocity |
| ConstantDrag.AirDragForce | src/dynamics/forces/Drag.h:32-36 | no force exactly when the relative speed is below 1e-6 |
| ConstantDrag.AirDragOpposesMotion | src/dynamics/forces/Drag.h:14-45 | for non-negative density, Cd and area the force points against the relative velocity |
| ConstantDrag.AirDragMagnitude | src/dynamics/forces/Drag.h:38-43 | the force's size is `0.5 rho Cd A |v|^2` |
| ConstantDrag.DragMagnitudeIncreasesWithCd | src/dynamics/forces/Drag.h:41-42 | a larger coefficient gives strictly more drag |
| ConstantDrag.DragMagnitudeIncreasesWithArea | src/dynamics/forces/Drag.h:41-42 | a larger area gives strictly more drag |
| ConstantDrag.SetDragCoefficient | src/dynamics/forces/Drag.h:50 | only the coefficient changes |
| ConstantDrag.SetArea | src/dynamics/forces/Drag.h:51 | only the area changes |
| DragLaws.LinearDragIgnoresAir | src/dynamics/forces/DragForce.h:25-33 | linear drag is `-b v` whatever the area and density |
| DragLaws.QuadraticDragBelowThreshold | src/dynamics/forces/DragForce.h:47-52 | below 0.001 m/s quadratic drag is zero |
| DragLaws.QuadraticDragIsAirDrag | src/dynamics/forces/DragForce.h:54-57 | above the threshold quadratic drag equals the constant-coefficient air drag formula |
| DragLaws.QuadraticDragOpposesMotion | src/dynamics/forces/DragForce.h:40-58 | quadratic drag never has a positive component along the velocity |
| DragLaws.SetDragCoefficient | src/dynamics/forces/DragForce.h:60-61 | after setting, `getDragCoefficient` returns the new value |
| DragLaws.NewDragForce | src/dynamics/forces/DragForce.h:71-74 | the default area is 0.01 m^2 and the default density is sea level |
| DragLaws.SetCrossSectionArea | src/dynamics/forces/DragForce.h:88-91 | only the area changes, and the getter returns it |
| DragLaws.SetAirDensity | src/dynamics/forces/DragForce.h:89-92 | only the density changes, and the getter returns it |
| DragLaws.SetModel | src/dynamics/forces/DragForce.h:87 | only the law changes |
| DragLaws.DragForceContribution | src/dynamics/forces/DragForce.h:76-85 | a force is added exactly when a law is present |
| DragLaws.ApplyDragForce | src/dynamics/forces/DragForce.h:76-85 | the accumulator grows by the law's output at the body velocity, or is unchanged without a law |
| MachDrag.ConstantCdDrag | src/dynamics/forces/drag/Drag.h:21-25 | a constant coefficient becomes a custom model holding it |
| MachDrag.CurveDrag | src/dynamics/forces/drag/Drag.h:27-31 | a curve family becomes a standard model of that family |
| MachDrag.SetDragModel | src/dynamics/forces/drag/Drag.h:69 | only the model changes |
| MachDrag.SetArea | src/dynamics/forces/drag/Drag.h:70 | only the area changes |
| MachDrag.MachDragAtRest | src/dynamics/forces/drag/Drag.h:39-65 | still air relative to the body exerts no force |
| MachDrag.ConstantCdMatchesAirDrag | src/dynamics/forces/drag/Drag.h:39-65 | with a constant coefficient the Mach drag equals the constant-coefficient drag whenever that one acts |
| MachDrag.ConstantCdIgnoresMach | src/dynamics/forces/drag/Drag.h:54-58 | a constant-coefficient drag does not depend on the speed of sound |
| AtmosphericDrag.ClampAltitude | src/dynamics/forces/AtmosphericDragForce.h:71-84 | ISA clamps to [0, 11000]; the exponential model only raises negative heights to 0 |
| AtmosphericDrag.GetTemperature | src/dynamics/forces/AtmosphericDragForce.h:50-55 | ISA temperature lies between `T0 - L * 11000` and `T0`; the exponential model is isothermal |
| AtmosphericDrag.IsaClampsEverything | src/dynamics/forces/AtmosphericDragForce.h:38-63 | every ISA query answers as if the altitude were clamped first |
| AtmosphericDrag.IsaConstantAboveTroposphere | src/dynamics/forces/AtmosphericDragForce.h:69-84 | above 11000 m the ISA density is constant |
| AtmosphericDrag.IsaSeaLevel | src/dynamics/forces/AtmosphericDragForce.h:50-63 | at sea level ISA gives the sea-level temperature and pressure |
| AtmosphericDrag.ExponentialSeaLevel | src/dynamics/forces/AtmosphericDragForce.h:94-124 | at and below altitude 0 the exponential model gives sea-level density and pressure |
| AtmosphericDrag.ExponentialDensityPositive | src/dynamics/forces/AtmosphericDragForce.h:94-99 | with a positive sea-level density the exponential density is positive everywhere |
| AtmosphericDrag.SetGround | src/dynamics/forces/AtmosphericDragForce.h:162 | only the ground height changes |
| AtmosphericDrag.SetArea | src/dynamics/forces/AtmosphericDragForce.h:163 | only the area changes |
| AtmosphericDrag.GetAirDensityAt | src/dynamics/forces/AtmosphericDragForce.h:165-168 | without an atmosphere the density is sea-level |
| AtmosphericDrag.AtmosphericDragContribution | src/dynamics/forces/AtmosphericDragForce.h:142-159 | no force exactly when the drag law or the atmosphere is missing |
| AtmosphericDrag.AtmosphericDragIsDragForce | src/dynamics/forces/AtmosphericDragForce.h:142-168 | atmospheric drag is a `DragForce` whose density is the atmosphere's at the body's height above ground |
| WindDrag.NewWindDrag | src/dynamics/forces/WindDragForce.h:19-37 | the constructor keeps its arguments; a missing drag law becomes the default quadratic law |
| WindDrag.DefaultWindDrag | src/dynamics/forces/WindDragForce.h:19-37 | the defaults are no wind, quadratic drag, the sphere area, sea-level density, no atmosphere and ground at 0 |
| WindDrag.SetWindVelocity | src/dynamics/forces/WindDragForce.h:71-72 | only the wind velocity changes |
| WindDrag.SetAtmosphereModel | src/dynamics/forces/WindDragForce.h:74 | only the atmosphere model changes |
| WindDrag.WindDensity | src/dynamics/forces/WindDragForce.h:53-60 | the fixed density without an atmosphere; with one, the atmosphere's density at the height above ground |
| WindDrag.WindDragContribution | src/dynamics/forces/WindDragForce.h:40-69 | a grounded body, and only a grounded body, feels no wind drag |
| WindDrag.WindDragIsDragForceOnRelativeVelocity | src/dynamics/forces/WindDragForce.h:62-68 | wind drag is the drag force evaluated on the velocity relative to the wind, at the local density |
| WindDrag.NoDragWhenMovingWithWind | src/dynamics/forces/WindDragForce.h:62-68 | a body moving with the wind feels no quadratic drag |
| WindDrag.ZeroBelowThreshold | src/dynamics/forces/DragForce.h:47-52 | quadratic drag at zero relative velocity is zero |
| WindDrag.LinearDragPushesAlongWind | src/dynamics/forces/WindDragForce.h:62-68 | with linear drag a body at rest is pushed along the wind, in proportion to the wind speed |
| Coriolis.EarthRotation | src/dynamics/forces/Coriolis.h:30-35 | Earth's rotation vector has no east component; its up and north parts are `ω sin φ` and `ω cos φ` |
| Coriolis.CoriolisForce | src/dynamics/forces/Coriolis.h:19-47 | no force without a latitude or a positive mass; otherwise mass times `-2 ω × v` |
| Coriolis.CoriolisDoesNoWork | src/dynamics/forces/Coriolis.h:37-46 | the Coriolis force is perpendicular to the velocity and to Earth's rotation axis |
| Coriolis.CoriolisAtRest | src/dynamics/forces/Coriolis.h:37-46 | a body at rest feels no Coriolis force |
| Coriolis.CoriolisScalesWithMass | src/dynamics/forces/Coriolis.h:40-46 | doubling the mass doubles the force |
| GravityForces.GravitationalForce | src/dynamics/forces/Gravity.h:17-38 | no force without positive mass; otherwise straight down, `mass * g` from the context or the default `GRAVITY` |
| GravityForces.GravityForceContribution | src/dynamics/forces/GravityForce.h:16-25 | no force without positive mass; otherwise the configured vector times the mass |
| GravityForces.GravityGenerationsDiffer | src/dynamics/forces/GravityForce.h:16 | the two gravity generators disagree by `0.00335 * mass`, because their default constants differ |
| GravityForces.StandardContextGravity | src/dynamics/forces/Gravity.h:24-33 | a context holding standard gravity gives the same force as no context gravity |
| Environments.NewHumidity | src/dynamics/environment/Humidity.h:19-23 | the relative humidity is clamped to [0, 100] |
| Environments.SetWind | src/dynamics/environment/Wind.h:23-24 | the wind provider now holds the new wind |
| Environments.TroposphereAltitude | src/dynamics/environment/Atmosphere.h:30 | the height above ground clamped to [0, 11000] |
| Environments.AtmosphereTemperature | src/dynamics/environment/Atmosphere.h:33 | the lapse-rate temperature lies between its value at 11000 m and the base temperature |
| Environments.IdealGasDensity | src/dynamics/environment/Atmosphere.h:39 | the ideal gas law: `rho * R * T == p` |
| Environments.SaturationVaporPressure | src/dynamics/environment/Humidity.h:48-53 | the Tetens saturation pressure is positive |
| Environments.HumidityNeverLowersDensity | src/dynamics/environment/Humidity.h:58-69 | the humidity correction as written never lowers the density |
| Environments.HumidityZeroIsNeutral | src/dynamics/environment/Humidity.h:58-69 | zero humidity leaves the density unchanged |
| Environments.HeightAboveGround | src/dynamics/environment/Geographic.h:28 | the altitude is the non-negative height above ground |
| Environments.Update | src/dynamics/environment/Atmosphere.h:28-44 | each provider writes only its own context fields; the geographic provider writes its reference coordinates |
| Environments.AtmosphereAtGround | src/dynamics/environment/Atmosphere.h:28-44 | at or below the ground the atmosphere reports its base temperature, base pressure and their ideal-gas density |
| Environments.AtmosphereTemperatureRange | src/dynamics/environment/Atmosphere.h:30-33 | the atmosphere's temperature always lies in the tropospheric range |
| Environments.AtmosphereConstantAboveTroposphere | src/dynamics/environment/Atmosphere.h:30-43 | above 11000 m over the ground the atmosphere's output does not depend on height |
| Environments.HumidityNeedsAtmosphere | src/dynamics/environment/Humidity.h:30-34 | without pressure, temperature and density in the context, humidity records only itself |
| Environments.HumidityRaisesDensity | src/dynamics/environment/Humidity.h:36-41 | after an atmosphere, humidity does not lower the context density |
| Environments.PositionIndependent | src/dynamics/environment/Wind.h:18-21 | wind and humidity updates do not depend on the body's position |
| Environments.GeographicReferenceOnly | src/dynamics/environment/Geographic.h:31-32 | the reported latitude and longitude do not depend on the body's position |
| Environments.ApplyUpdate | src/dynamics/environment/Humidity.h:25-42 | the context afterwards is the provider's `Update` of the context before |
| Environments.AtmosphereThenHumidity | src/dynamics/PhysicsWorld.cpp:36-43 | atmosphere then humidity corrects the atmosphere's density; humidity first leaves it uncorrected |
| SpinDrift.RiflingSign | src/dynamics/forces/SpinDrift.h:69 | the sign is +1 for right-hand twist and -1 for left-hand twist |
| SpinDrift.YawOfRepose | src/dynamics/forces/SpinDrift.h:35-72 | zero without spin data or below the minimum speed; otherwise the twist-signed numerator over the denominator |
| SpinDrift.GravityCrossFacts | src/dynamics/forces/SpinDrift.h:63-64 | `g × v` is horizontal and perpendicular to the velocity |
| SpinDrift.YawIsSideways | src/dynamics/forces/SpinDrift.h:34-72 | the yaw of repose is horizontal and perpendicular to the velocity |
| SpinDrift.WithDirectionKeeps | src/dynamics/forces/SpinDrift.h:69 | the twist direction changes neither the numerator nor the denominator of the yaw |
| SpinDrift.YawFlipsWithTwist | src/dynamics/forces/SpinDrift.h:69-71 | left-hand twist gives exactly the negated yaw of right-hand twist |
| SpinDrift.LiftForce | src/dynamics/forces/SpinDrift.h:76-116 | lift acts exactly on a projectile with spin data that moves |
| SpinDrift.MagnusForce | src/dynamics/forces/SpinDrift.h:128-170 | the Magnus force acts under the same conditions as lift |
| SpinDrift.LiftIsSideways | src/dynamics/forces/SpinDrift.h:109-112 | lift is horizontal and perpendicular to the velocity |
| SpinDrift.MagnusIsPerpendicular | src/dynamics/forces/SpinDrift.h:162-166 | the Magnus force is perpendicular to the velocity |
| SpinDrift.NoSpinNoNumerator | src/dynamics/forces/SpinDrift.h:60-66 | a zero spin rate zeroes the yaw numerator |
| SpinDrift.NoSpinNoYaw | src/dynamics/forces/SpinDrift.h:35-72 | a zero spin rate gives zero yaw of repose |
| SpinDrift.NoSpinNoSpinForces | src/dynamics/forces/SpinDrift.h:74-170 | a zero spin rate gives zero lift and zero Magnus force |
| ForceKinds.Contribution | src/dynamics/forces/Force.h:22-23 | each force's `apply`: Mach drag always adds; mass-based forces need positive mass, spin forces a projectile, wind drag an airborne body |
| ForceKinds.NewForce | src/dynamics/forces/Force.h:33-34 | a new force has recorded no force yet |
| ForceKinds.Applied | src/dynamics/forces/Force.h:31-34 | the recorded force changes only to the force just added, by forces that record it |
| ForceKinds.AppliedAll | src/dynamics/forces/ForceRegistry.cpp:35-44 | every force in the list is applied once, in order |
| ForceKinds.AccumulateConcat | src/dynamics/PhysicsWorld.cpp:45-52 | applying two lists one after the other equals applying their concatenation |
| ForceKinds.AccumulateSameKinds | src/dynamics/forces/ForceRegistry.cpp:35-44 | what is added depends only on the kinds of the forces, not on what they recorded before |
| ForceKinds.AccumulateInert | src/dynamics/forces/ForceRegistry.cpp:35-44 | forces that all decline leave the accumulator unchanged |
| ForceKinds.ApplyForce | src/dynamics/forces/Force.h:22-23 | the body's accumulator grows by the force's contribution and nothing else about the body changes |
| ForceKinds.ApplyAll | src/dynamics/PhysicsWorld.cpp:45-52 | the accumulator grows by every contribution in order; each force records its own |
| Lookup.FirstNamed | src/dynamics/forces/ForceRegistry.cpp:69-79 | the index of the first entry with the name, or none exactly when no entry has it |
| Lookup.FindNamed | src/dynamics/forces/ForceRegistry.cpp:69-79 | the loop returns the first entry with the name, or null |
| Lookup.FirstNamedAppend | src/dynamics/PhysicsWorld.cpp:55-65 | appending an entry never hides an earlier match; it is found only when nothing before matches |
| Registry.ForceRegistry.constructor | src/dynamics/forces/ForceRegistry.h:19 | a new registry is empty |
| Registry.ForceRegistry.Add | src/dynamics/forces/ForceRegistry.cpp:11-17 | a non-null force is appended; null is ignored |
| Registry.ForceRegistry.Remove | src/dynamics/forces/ForceRegistry.cpp:19-28 | removes the entry at a valid index and reports it; otherwise changes nothing and reports false |
| Registry.ForceRegistry.Clear | src/dynamics/forces/ForceRegistry.cpp:30-33 | the registry is empty |
| Registry.ForceRegistry.ApplyForces | src/dynamics/forces/ForceRegistry.cpp:35-44 | the body's accumulator grows by every force's contribution, in order |
| Registry.ForceRegistry.ClearAccumulators | src/dynamics/forces/ForceRegistry.cpp:46-49 | the body's accumulated force is zero; its state is unchanged |
| Registry.ForceRegistry.Get | src/dynamics/forces/ForceRegistry.cpp:51-58 | the force at the index, or null exactly when the index is out of range |
| Registry.ForceRegistry.GetByName | src/dynamics/forces/ForceRegistry.cpp:69-79 | the first force with the name, or null |
| World.PhysicsWorld.constructor | src/dynamics/PhysicsWorld.h:22 | a new world has no forces and no environments |
| World.PhysicsWorld.AddForce | src/dynamics/PhysicsWorld.cpp:10-16 | a non-null force is appended; null is ignored; environments are untouched |
| World.PhysicsWorld.AddEnvironment | src/dynamics/PhysicsWorld.cpp:18-24 | a non-null provider is appended; null is ignored; forces are untouched |
| World.PhysicsWorld.Clear | src/dynamics/PhysicsWorld.cpp:26-30 | no forces and no environments remain |
| World.PhysicsWorld.AddSpinDrift | src/dynamics/forces/SpinDrift.h:183-188 | lift then Magnus are appended |
| World.PhysicsWorld.ApplyForces | src/dynamics/PhysicsWorld.cpp:32-53 | the context is reset and filled by every provider in order; then every force adds its contribution computed from that context |
| World.PhysicsWorld.GetForce | src/dynamics/PhysicsWorld.cpp:55-65 | the first force with the name, or null |
| World.PhysicsWorld.GetEnvironment | src/dynamics/PhysicsWorld.cpp:67-77 | the first provider with the name, or null |
| World.SpinDriftAddsLiftThenMagnus | src/dynamics/forces/SpinDrift.h:183-188 | after `addTo` a step adds lift and then the Magnus force to what the earlier forces add |
| World.WindIsWritten | src/dynamics/PhysicsWorld.cpp:36-43 | with a wind provider registered the context always holds a wind |
| Integrators.Acceleration | src/math/Integrator.cpp:21-26 | `a * m == F` for positive mass; zero otherwise |
| Integrators.GroundClamp | src/math/Integrator.cpp:32-40 | a body below ground is put on the ground and stopped; otherwise nothing changes |
| Integrators.EulerResult | src/math/Integrator.cpp:10-44 | the Euler step never ends below ground |
| Integrators.EulerStep | src/math/Integrator.cpp:10-44 | the body moves to the Euler result and its accumulator is cleared; mass and specs are unchanged; each registry force records what it applied to the body |
| Integrators.EulerInertial | src/math/Integrator.cpp:28-30 | without forces the Euler step moves in a straight line at constant velocity |
| Integrators.ZeroAcceleration | src/math/Integrator.cpp:21-26 | no force gives no acceleration |
| Integrators.RK4Result | src/math/Integrator.cpp:46-110 | the RK4 step never ends below ground |
| Integrators.CalcAccel | src/math/Integrator.cpp:55-74 | a stage's acceleration is the force on a sliced copy of the body at the stage state, over the mass; each registry force records what it applied to that copy |
| Integrators.RK4Step | src/math/Integrator.cpp:46-110 | the body moves to the RK4 result and its accumulator is cleared; mass and specs are unchanged; the registry keeps its forces' kinds and order |
| Integrators.RK4Inertial | src/math/Integrator.cpp:94-96 | without forces the RK4 step moves in a straight line at constant velocity |
| Collision.BoxBoxContactIsLeastOverlap | src/collision/BoxCollider.cpp:41-73 | boxes touch when they overlap on every axis; the penetration is the least overlap and the normal points along that axis towards the other box |
| Collision.BoxBoxSymmetric | src/collision/BoxCollider.cpp:41-73 | box-box contact and its penetration do not depend on which box comes first |
| Collision.BoxContainsCentre | src/collision/BoxCollider.cpp:33-39 | a box of non-negative size contains its own centre |
| Collision.LowestIsMinimum | src/collision/BoxCollider.cpp:80-98 | the lowest vertex height is at most the centre and every corner, and equals one of them |
| Collision.LowestStep | src/collision/BoxCollider.cpp:94-97 | each corner lowers the running minimum when it is lower |
| Collision.GroundContactBelowLowest | src/collision/BoxCollider.cpp:100-107 | a box hits the ground exactly when its lowest vertex is below it; the normal is up and the penetration fills the gap |
| Collision.AxisAlignedLowest | src/collision/BoxCollider.cpp:84-98 | with the default axes the lowest point is the bottom face |
| Collision.BoxCollider.constructor | src/collision/BoxCollider.cpp:10 | a new box sits at the origin with the given size and the world axes |
| Collision.BoxCollider.SetPosition | src/collision/BoxCollider.h:25 | only the position changes |
| Collision.BoxCollider.SetSize | src/collision/BoxCollider.h:28 | only the size changes |
| Collision.BoxCollider.SetAxes | src/collision/BoxCollider.cpp:12-17 | the three axes are replaced |
| Collision.BoxCollider.TestPoint | src/collision/BoxCollider.cpp:33-39 | a point is inside exactly when it is within half the size on every axis |
| Collision.BoxCollider.LowestVertexY | src/collision/BoxCollider.cpp:80-98 | the loop over the eight corners returns the lowest vertex height |
| Collision.BoxCollider.TestCollisionWithGround | src/collision/BoxCollider.cpp:75-108 | the result is the box-ground contact for the current ground height |
| Collision.GroundCollider.constructor | src/collision/GroundCollider.cpp:10 | the ground sits at the given height |
| Collision.GroundCollider.SetPosition | src/collision/GroundCollider.cpp:12-15 | only the height of the ground changes |
| Collision.GroundCollider.SetGroundY | src/collision/GroundCollider.cpp:17-20 | the ground height is the new level and nothing else changes |
| Collision.GroundCollider.TestPoint | src/collision/GroundCollider.cpp:37-40 | a point is inside exactly when it is at or below the ground |
| Collision.ShapeContactMeaning | src/collision/BoxCollider.cpp:19-31 | the ground never reports a hit; box-ground hits mean the lowest vertex is below ground; box-box contact ignores the axes |
| Collision.BoxesMeetSymmetrically | src/collision/BoxCollider.cpp:41-73 | two boxes collide in one order exactly when they collide in the other |
| Collision.ColliderRef.Snapshot | src/collision/Collider.h:22-32 | a box snapshot is a box shape and a ground snapshot a ground shape |
| Collision.TestCollision | src/collision/BoxCollider.cpp:19-31 | the collider answers as its shape's contact function |
| Collision.PairManifoldMeaning | src/collision/CollisionDetection.cpp:43-51 | a pair yields a manifold when either order collides; the first order that collides is the one reported |
| Collision.BoxLeadsAgainstGround | src/collision/CollisionDetection.cpp:43-51 | a ground-box pair reports the box as the first collider, as the box-ground pair does |
| Collision.RowLength | src/collision/CollisionDetection.cpp:36-53 | a row reports at most one manifold per later collider |
| Collision.PairsBeforeClosedForm | src/collision/CollisionDetection.cpp:36-53 | the number of pairs in the first rows has the triangular closed form |
| Collision.ManifoldsPerPair | src/collision/CollisionDetection.cpp:36-53 | the first rows report at most one manifold per pair they cover |
| Collision.ManifoldCountBound | src/collision/CollisionDetection.cpp:36-53 | `n` colliders give at most `n (n - 1) / 2` manifolds |
| Collision.RowHit | src/collision/CollisionDetection.cpp:38-52 | every manifold in a row comes from a later collider in that row |
| Collision.ManifoldIsHit | src/collision/CollisionDetection.cpp:36-53 | every reported manifold comes from a pair `i < j` |
| Collision.HitsAreInOutput | src/collision/CollisionDetection.cpp:36-53 | every pair that yields a manifold has it reported |
| Collision.HitsAreReported | src/collision/CollisionDetection.cpp:36-53 | colliders that touch in either order are reported |
| Collision.TestPair | src/collision/CollisionDetection.cpp:40-51 | the pair is checked as `a` against `b` and, only if that misses, `b` against `a` |
| Collision.DetectRow | src/collision/CollisionDetection.cpp:38-52 | the inner loop collects the row's manifolds in order |
| Collision.DetectPairs | src/collision/CollisionDetection.cpp:36-53 | the outer loop collects every row in order |
| Collision.CollisionDetection.constructor | src/collision/CollisionDetection.h:31 | a new detector has no colliders |
| Collision.CollisionDetection.AddCollider | src/collision/CollisionDetection.cpp:10-16 | a non-null collider is appended; null is ignored |
| Collision.CollisionDetection.RemoveCollider | src/collision/CollisionDetection.cpp:18-25 | the first occurrence of the collider is removed; an absent collider changes nothing |
| Collision.CollisionDetection.Clear | src/collision/CollisionDetection.cpp:27-30 | no colliders remain |
| Collision.CollisionDetection.Detect | src/collision/CollisionDetection.cpp:32-54 | the manifolds of all pairs `i < j`, row by row, from the colliders' current shapes |
| Platform.Platform.Div | src/math/Vec3.cpp:25-28 | a division by non-zero is undone by multiplying back |

## Left out

- Floating point: every `float` and `double` is a real, so IEEE rounding, overflow, NaN and infinities are not modelled. A division by zero yields the uninterpreted `Platform.nonFinite`.
- The C math library (`sqrt`, `exp`, `pow`, `sin`, `cos`) is uninterpreted. Only the facts in `Platform.Sound()` and `Platform.Trigonometric()` are assumed, and only by the lemmas that require them.
- Constants that the code uses but `src/Constants.h` does not declare are `Platform` fields with no fixed value: the sea-level density, temperature and pressure, the speed of sound, the linear drag coefficient, and the three default spin coefficients.
- `src/geography/Coordinates.cpp` is not part of this model. The geographic provider's gravity is the uninterpreted `Platform.geodeticGravity` of the reference latitude, longitude and altitude.
- Reading drag-curve files: a file's contents are passed in as a sequence of already-split lines, or `None` when the file cannot be opened, and the standard models look their file up in a map from file names to contents. `istringstream` number parsing is reduced to the pair of numbers a line yields, if any. The `std::cerr` message on a failed load is not modelled.
- The preset managers under `src/` and `src/dynamics/` are not part of this model. They only construct and register the modelled forces.
- `isActive()` is `true` for every force in the source and no force overrides it, so the model has no inactive forces.
- Null pointers exist only where the source checks for them: `add`, `addForce`, `addEnvironment` and `addCollider` take an `Option`, and lookups return one.
- `dynamic_cast` to a projectile body becomes the test `specs.Some?` on the one `Body` class.
- `getName` and `getSymbol` are reduced to the name that lookups compare. Symbols are not modelled.
- The `dt` argument of `apply` and of `ForceRegistry::applyForces` is unused in the source and is not modelled.
- The integrators use the `Integrator.cpp` signature that takes a `ForceRegistry` pointer. The declaration in `Integrator.h` without one is not modelled.
- `Vec3::length`, `dot`, `normalized` and `cross` are declared or used but not defined in `src/math/Vec3.cpp`. The model defines `Dot`, `Cross` and `Length` in the usual way; `normalized` is not used by the modelled code.
- `Humidity.h` reads and writes `context.humidity`, `pressure`, `temperature` and `density`, which `PhysicsContext.h` does not declare. The model uses the declared `airHumidity`, `airPressure`, `airTemperature` and `airDensity`.
- `BoxCollider`'s default size argument `{1, 1, 1}` is not modelled. The constructor always takes the size.
- `isGrounded()` is read by wind drag, but no shown source defines or sets it. The model keeps a `grounded` field that no operation changes.
- DragModels.DragCurve.GetCdNearest: it requires a non-empty curve, because the source indexes an empty table out of range there.
- Integrators.RK4Step: it states that the registry keeps its forces' kinds and order, but not what each force records after the four stages. `Integrators.CalcAccel` states the records stage by stage.
- SpinDrift.YawOfRepose: the source reads the rifling direction without checking that rifling is present. The value of that read is the `Platform.emptyRiflingRight` flag, not a precondition.
- Bodies.VelocityFromAngles: its own contract states only the zero-angle case. `Bodies.LaunchSpeed` states the speed for all angles, assuming `Platform.Trigonometric()`.
- Coriolis.EarthRotation: it follows the code, which puts `ω sin φ` on the up axis and `ω cos φ` on the north axis.
- Aliasing between bodies, colliders and forces is not modelled. Forces are values held by the registry and the world, and each method names the one body or collider it changes.
