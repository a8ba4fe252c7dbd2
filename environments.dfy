/**
 * The environment providers of src/dynamics/environment/: each one writes some
 * fields of the physics context from its own parameters and the body's position.
 */
module Environments {
  import opened Wrappers
  import opened Platform
  import opened Vectors
  import opened Constants
  import opened Context

  /** `IEnvironment` implementations, with their parameters. */
  datatype Environment =
    | Atmosphere(baseTemperature: real, basePressure: real, groundY: real)
    | Humidity(relativeHumidity: real)
    | Wind(windVelocity: Vec3)
    | Geographic(referenceLatitude: real, referenceLongitude: real, groundY: real)
  {
    /** `getName()` */
    function Name(): string {
      match this
      case Atmosphere(_, _, _) => "Atmosphere"
      case Humidity(_) => "Humidity"
      case Wind(_) => "Wind"
      case Geographic(_, _, _) => "Geographic"
    }
  }

  /** `Atmosphere()` with its default arguments: ISA sea-level base values, ground at 0. */
  const DefaultAtmosphere: Environment :=
    Atmosphere(BASE_TEMPERATURE, BASE_ATMOSPHERIC_PRESSURE, 0.0)

  /** `Humidity(rh)`: the relative humidity is clamped to [0, 100] percent. */
  function NewHumidity(relativeHumidity: real): (env: Environment)
    ensures env.Humidity?
    ensures 0.0 <= env.relativeHumidity <= 100.0
    ensures 0.0 <= relativeHumidity <= 100.0 ==> env.relativeHumidity == relativeHumidity
    ensures relativeHumidity < 0.0 ==> env.relativeHumidity == 0.0
    ensures relativeHumidity > 100.0 ==> env.relativeHumidity == 100.0
  {
    Humidity(if relativeHumidity > 100.0 then 100.0 else if relativeHumidity < 0.0 then 0.0 else relativeHumidity)
  }

  /** `Humidity()` with its default argument of 50 %. */
  const DefaultHumidity: Environment := NewHumidity(50.0)

  /** `Wind()` with its default argument: still air. */
  const DefaultWind: Environment := Wind(Zero)

  /** `setWind(w)`: a wind provider blowing `w`. */
  function SetWind(env: Environment, w: Vec3): (r: Environment)
    requires env.Wind?
    ensures r.Wind? && r.windVelocity == w
  {
    env.(windVelocity := w)
  }

  // ---------------------------------------------------------------------------
  // Atmosphere

  /** The altitude the atmosphere uses: height above its ground, clamped to the troposphere. */
  function TroposphereAltitude(y: real, groundY: real): (h: real)
    ensures 0.0 <= h <= TROPOSPHERE_MAX
    ensures 0.0 <= y - groundY <= TROPOSPHERE_MAX ==> h == y - groundY
    ensures y - groundY <= 0.0 ==> h == 0.0
    ensures y - groundY >= TROPOSPHERE_MAX ==> h == TROPOSPHERE_MAX
  {
    var above := y - groundY;
    if above < 0.0 then 0.0 else if above > TROPOSPHERE_MAX then TROPOSPHERE_MAX else above
  }

  /** `BAROMETRIC_EXP`: |GRAVITY| / (R_dry * L). */
  function BarometricExponent(p: Platform): real {
    Length(p, GRAVITY) / (GAS_CONSTANT_DRY_AIR * LAPSE_RATE)
  }

  /** The lapse-rate temperature at clamped altitude `h`. */
  function AtmosphereTemperature(baseTemperature: real, h: real): (t: real)
    requires 0.0 <= h <= TROPOSPHERE_MAX
    ensures baseTemperature - LAPSE_RATE * TROPOSPHERE_MAX <= t <= baseTemperature
    ensures h == 0.0 ==> t == baseTemperature
  {
    baseTemperature - LAPSE_RATE * h
  }

  /** The barometric formula p0 * (T / T0)^(g / (R L)). */
  function AtmospherePressure(p: Platform, basePressure: real, baseTemperature: real, t: real): real {
    basePressure * p.pow(p.Div(t, baseTemperature), BarometricExponent(p))
  }

  /** The ideal gas law rho = p / (R_dry T). */
  function IdealGasDensity(p: Platform, pressure: real, t: real): (rho: real)
    ensures t != 0.0 ==> rho * (GAS_CONSTANT_DRY_AIR * t) == pressure
  {
    p.Div(pressure, GAS_CONSTANT_DRY_AIR * t)
  }

  // ---------------------------------------------------------------------------
  // Humidity

  /** Tetens' saturation vapour pressure, with the exponent's denominator `T + 35.85` as coded. */
  function SaturationVaporPressure(p: Platform, tempK: real): (psat: real)
    ensures p.Sound() ==> psat > 0.0
  {
    var tempC := tempK - CELSIUS_TO_KELVIN;
    var exponent := p.Div(TETENS_A * tempC, tempK + TETENS_B);
    TETENS_C * p.exp(exponent)
  }

  /** The dry density plus the water-vapour density (phi / 100) * p_sat / (R_vap T). */
  function CorrectDensityForHumidity(p: Platform, rhoDry: real, tempK: real, pressure: real, humidityPercent: real): real {
    var pressureVapor := (humidityPercent / 100.0) * SaturationVaporPressure(p, tempK);
    rhoDry + p.Div(pressureVapor, GAS_CONSTANT_WATER_VAPOR * tempK)
  }

  /** At a positive temperature and a humidity in [0, 100] %, the correction never lowers density. */
  lemma HumidityNeverLowersDensity(p: Platform, rhoDry: real, tempK: real, pressure: real, humidityPercent: real)
    requires p.Sound()
    requires tempK > 0.0 && 0.0 <= humidityPercent <= 100.0
    ensures CorrectDensityForHumidity(p, rhoDry, tempK, pressure, humidityPercent) >= rhoDry
  {
    var psat := SaturationVaporPressure(p, tempK);
    var vapor := (humidityPercent / 100.0) * psat;
    assert vapor >= 0.0;
    var d := GAS_CONSTANT_WATER_VAPOR * tempK;
    assert d > 0.0;
    var q := p.Div(vapor, d);
    assert q * d == vapor;
  }

  /** Dry air is left exactly as it is. */
  lemma HumidityZeroIsNeutral(p: Platform, rhoDry: real, tempK: real, pressure: real)
    requires tempK > 0.0
    ensures CorrectDensityForHumidity(p, rhoDry, tempK, pressure, 0.0) == rhoDry
  {
    var d := GAS_CONSTANT_WATER_VAPOR * tempK;
    var q := p.Div(0.0, d);
    assert q * d == 0.0;
  }

  // ---------------------------------------------------------------------------
  // Geographic

  /** Height above the provider's ground, never negative. */
  function HeightAboveGround(y: real, groundY: real): (h: real)
    ensures h >= 0.0
    ensures y >= groundY ==> h == y - groundY
    ensures y <= groundY ==> h == 0.0
  {
    if y - groundY > 0.0 then y - groundY else 0.0
  }

  // ---------------------------------------------------------------------------
  // update

  /**
   * What `update` leaves in the context, given the body position and the context
   * before. Each provider writes its own fields and no others.
   */
  function Update(p: Platform, env: Environment, position: Vec3, s: ContextState): (r: ContextState)
    ensures r.airHumidity == (if env.Humidity? then Some(env.relativeHumidity) else s.airHumidity)
    ensures r.wind == (if env.Wind? then Some(env.windVelocity) else s.wind)
    ensures !env.Atmosphere? ==> r.airTemperature == s.airTemperature && r.airPressure == s.airPressure
    ensures !env.Atmosphere? && !env.Humidity? ==> r.airDensity == s.airDensity
    ensures !env.Geographic? ==>
      r.latitude == s.latitude && r.longitude == s.longitude && r.altitude == s.altitude && r.gravity == s.gravity
    ensures env.Geographic? ==> r.latitude == Some(env.referenceLatitude) && r.longitude == Some(env.referenceLongitude)
    ensures env.Geographic? ==> r.altitude.Some? && r.altitude.value >= 0.0
  {
    match env
    case Atmosphere(t0, p0, groundY) =>
      var h := TroposphereAltitude(position.y, groundY);
      var t := AtmosphereTemperature(t0, h);
      var pressure := AtmospherePressure(p, p0, t0, t);
      s.(airTemperature := Some(t), airPressure := Some(pressure), airDensity := Some(IdealGasDensity(p, pressure, t)))
    case Humidity(rh) =>
      var s' := s.(airHumidity := Some(rh));
      if s.airPressure.None? || s.airTemperature.None? || s.airDensity.None? then s'
      else s'.(airDensity := Some(CorrectDensityForHumidity(p, s.airDensity.value, s.airTemperature.value, s.airPressure.value, rh)))
    case Wind(w) =>
      s.(wind := Some(w))
    case Geographic(lat, lon, groundY) =>
      var alt := HeightAboveGround(position.y, groundY);
      s.(latitude := Some(lat), longitude := Some(lon), altitude := Some(alt),
         gravity := Some(p.geodeticGravity(lat, lon, alt)))
  }

  /**
   * At or below its ground the atmosphere reports the base temperature, the base
   * pressure and the density p0 / (R_dry T0).
   */
  lemma AtmosphereAtGround(p: Platform, t0: real, p0: real, groundY: real, position: Vec3, s: ContextState)
    requires p.Sound() && t0 != 0.0
    requires position.y <= groundY
    ensures var r := Update(p, Atmosphere(t0, p0, groundY), position, s);
      && r.airTemperature == Some(t0)
      && r.airPressure == Some(p0)
      && r.airDensity == Some(p.Div(p0, GAS_CONSTANT_DRY_AIR * t0))
  {
    var ratio := p.Div(t0, t0);
    assert ratio * t0 == t0;
    UnitFactor(ratio, t0);
  }

  lemma UnitFactor(r: real, t: real)
    requires t != 0.0 && r * t == t
    ensures r == 1.0
  {
    assert (r - 1.0) * t == 0.0;
  }

  /** The written temperature always lies between T0 - L * 11000 and T0. */
  lemma AtmosphereTemperatureRange(p: Platform, env: Environment, position: Vec3, s: ContextState)
    requires env.Atmosphere?
    ensures var r := Update(p, env, position, s);
      r.airTemperature.Some? &&
      env.baseTemperature - LAPSE_RATE * TROPOSPHERE_MAX <= r.airTemperature.value <= env.baseTemperature
  {
  }

  /** Above the tropopause the atmosphere no longer changes with height. */
  lemma AtmosphereConstantAboveTroposphere(p: Platform, env: Environment, a: Vec3, b: Vec3, s: ContextState)
    requires env.Atmosphere?
    requires a.y - env.groundY >= TROPOSPHERE_MAX && b.y - env.groundY >= TROPOSPHERE_MAX
    ensures Update(p, env, a, s) == Update(p, env, b, s)
  {
  }

  /** Without pressure, temperature or density in the context, humidity only records itself. */
  lemma HumidityNeedsAtmosphere(p: Platform, rh: real, position: Vec3, s: ContextState)
    requires s.airPressure.None? || s.airTemperature.None? || s.airDensity.None?
    ensures Update(p, Humidity(rh), position, s) == s.(airHumidity := Some(rh))
  {
  }

  /** With a full atmosphere in the context, humidity never lowers the density. */
  lemma HumidityRaisesDensity(p: Platform, rh: real, position: Vec3, s: ContextState)
    requires p.Sound()
    requires 0.0 <= rh <= 100.0
    requires s.airPressure.Some? && s.airDensity.Some?
    requires s.airTemperature.Some? && s.airTemperature.value > 0.0
    ensures var r := Update(p, Humidity(rh), position, s);
      r.airDensity.Some? && r.airDensity.value >= s.airDensity.value
  {
    HumidityNeverLowersDensity(p, s.airDensity.value, s.airTemperature.value, s.airPressure.value, rh);
  }

  /** Wind and humidity do not depend on where the body is. */
  lemma PositionIndependent(p: Platform, env: Environment, a: Vec3, b: Vec3, s: ContextState)
    requires env.Wind? || env.Humidity?
    ensures Update(p, env, a, s) == Update(p, env, b, s)
  {
  }

  /** The geographic provider writes the same latitude and longitude for every body. */
  lemma GeographicReferenceOnly(p: Platform, env: Environment, a: Vec3, b: Vec3, s: ContextState)
    requires env.Geographic?
    ensures Update(p, env, a, s).latitude == Update(p, env, b, s).latitude
    ensures Update(p, env, a, s).longitude == Update(p, env, b, s).longitude
  {
  }

  /** `update` of each provider, writing into a context object. */
  method ApplyUpdate(p: Platform, env: Environment, position: Vec3, ctx: PhysicsContext)
    modifies ctx
    ensures ctx.State() == Update(p, env, position, old(ctx.State()))
  {
    match env
    case Atmosphere(t0, p0, groundY) =>
      var h := TroposphereAltitude(position.y, groundY);
      var t := AtmosphereTemperature(t0, h);
      var pressure := AtmospherePressure(p, p0, t0, t);
      var density := IdealGasDensity(p, pressure, t);
      ctx.airTemperature := Some(t);
      ctx.airPressure := Some(pressure);
      ctx.airDensity := Some(density);
    case Humidity(rh) =>
      ctx.airHumidity := Some(rh);
      if ctx.airPressure.None? || ctx.airTemperature.None? || ctx.airDensity.None? {
        return;
      }
      var temperature := ctx.airTemperature.value;
      var pressure := ctx.airPressure.value;
      var density := ctx.airDensity.value;
      ctx.airDensity := Some(CorrectDensityForHumidity(p, density, temperature, pressure, rh));
    case Wind(w) =>
      ctx.wind := Some(w);
    case Geographic(lat, lon, groundY) =>
      var alt := HeightAboveGround(position.y, groundY);
      ctx.latitude := Some(lat);
      ctx.longitude := Some(lon);
      ctx.altitude := Some(alt);
      ctx.gravity := Some(p.geodeticGravity(lat, lon, alt));
  }

  // ---------------------------------------------------------------------------
  // A pass over several providers

  /** The context after running `envs` in order, starting from `s`. */
  function EnvPass(p: Platform, envs: seq<Environment>, position: Vec3, s: ContextState): ContextState {
    if |envs| == 0 then s
    else Update(p, envs[|envs| - 1], position, EnvPass(p, envs[..|envs| - 1], position, s))
  }

  /**
   * Order matters: humidity registered after the atmosphere corrects the density
   * the atmosphere computed, while humidity registered before it has its
   * correction overwritten.
   */
  lemma AtmosphereThenHumidity(p: Platform, atm: Environment, hum: Environment, position: Vec3)
    requires atm.Atmosphere? && hum.Humidity?
    ensures var dry := Update(p, atm, position, EmptyContext);
      var r := EnvPass(p, [atm, hum], position, EmptyContext);
      r.airDensity == Some(CorrectDensityForHumidity(p, dry.airDensity.value, dry.airTemperature.value,
                                                      dry.airPressure.value, hum.relativeHumidity))
    ensures var dry := Update(p, atm, position, EmptyContext);
      var r := EnvPass(p, [hum, atm], position, EmptyContext);
      r.airDensity == dry.airDensity && r.airHumidity == Some(hum.relativeHumidity)
  {
    assert [atm, hum][..1] == [atm];
    assert [hum, atm][..1] == [hum];
    assert [atm][..0] == [] && [hum][..0] == [];
  }
}
