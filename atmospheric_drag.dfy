/**
 * Altitude-dependent drag (src/dynamics/forces/AtmosphericDragForce.h): two
 * atmosphere models and the force that queries one for its density.
 */
module AtmosphericDrag {
  import opened Wrappers
  import opened Platform
  import opened Vectors
  import opened Constants
  import opened DragLaws

  /** `IAtmosphereModel` implementations. */
  datatype AtmosphereModel =
    | ISAModel
    | ExponentialAtmosphere(scaleHeight: real)

  /** `ExponentialAtmosphere()` with its default 8500 m scale height. */
  const DefaultExponentialAtmosphere: AtmosphereModel := ExponentialAtmosphere(8500.0)

  /** The altitude each model uses: ISA clamps to [0, 11000], the exponential model only below 0. */
  function ClampAltitude(m: AtmosphereModel, altitude: real): (h: real)
    ensures h >= 0.0
    ensures altitude >= 0.0 && (m.ExponentialAtmosphere? || altitude <= TROPOSPHERE_MAX) ==> h == altitude
    ensures m.ISAModel? ==> h <= TROPOSPHERE_MAX
    ensures m.ISAModel? && altitude > TROPOSPHERE_MAX ==> h == TROPOSPHERE_MAX
    ensures altitude < 0.0 ==> h == 0.0
  {
    if altitude < 0.0 then 0.0
    else if m.ISAModel? && altitude > TROPOSPHERE_MAX then TROPOSPHERE_MAX
    else altitude
  }

  /** `getTemperature(h)`: the ISA lapse rate, or the sea-level temperature everywhere. */
  function GetTemperature(p: Platform, m: AtmosphereModel, altitude: real): (t: real)
    ensures m.ExponentialAtmosphere? ==> t == p.seaLevelTemperature
    ensures m.ISAModel? ==>
      p.seaLevelTemperature - LAPSE_RATE * TROPOSPHERE_MAX <= t <= p.seaLevelTemperature
  {
    match m
    case ISAModel => p.seaLevelTemperature - LAPSE_RATE * ClampAltitude(m, altitude)
    case ExponentialAtmosphere(_) => p.seaLevelTemperature
  }

  /** `getPressure(h)`: p0 (1 - L h / T0)^(g / (R L)), or p0 e^(-h/H). */
  function GetPressure(p: Platform, m: AtmosphereModel, altitude: real): real {
    var h := ClampAltitude(m, altitude);
    match m
    case ISAModel =>
      p.seaLevelPressure * p.pow(1.0 - p.Div(LAPSE_RATE * h, p.seaLevelTemperature), IsaExponent(p))
    case ExponentialAtmosphere(scale) =>
      p.seaLevelPressure * p.exp(p.Div(-h, scale))
  }

  /** `BAROMETRIC_EXPONENT` of the ISA model. */
  function IsaExponent(p: Platform): real {
    Length(p, GRAVITY) / (GAS_CONSTANT_DRY_AIR * LAPSE_RATE)
  }

  /** `getDensity(h)`: the ideal gas law, or rho0 e^(-h/H). */
  function GetDensity(p: Platform, m: AtmosphereModel, altitude: real): real {
    var h := ClampAltitude(m, altitude);
    match m
    case ISAModel =>
      p.Div(GetPressure(p, m, h), GAS_CONSTANT_DRY_AIR * GetTemperature(p, m, h))
    case ExponentialAtmosphere(scale) =>
      p.seaLevelDensity * p.exp(p.Div(-h, scale))
  }

  /** The ISA model answers every query as if the altitude were clamped to the troposphere. */
  lemma IsaClampsEverything(p: Platform, altitude: real)
    ensures var h := ClampAltitude(ISAModel, altitude);
      && GetDensity(p, ISAModel, altitude) == GetDensity(p, ISAModel, h)
      && GetTemperature(p, ISAModel, altitude) == GetTemperature(p, ISAModel, h)
      && GetPressure(p, ISAModel, altitude) == GetPressure(p, ISAModel, h)
  {
  }

  /** Above 11000 m the ISA density no longer changes. */
  lemma IsaConstantAboveTroposphere(p: Platform, a: real, b: real)
    requires a >= TROPOSPHERE_MAX && b >= TROPOSPHERE_MAX
    ensures GetDensity(p, ISAModel, a) == GetDensity(p, ISAModel, b)
  {
  }

  /** At sea level the ISA model gives the sea-level temperature and pressure (its base is 1). */
  lemma IsaSeaLevel(p: Platform)
    requires p.Sound() && p.seaLevelTemperature != 0.0
    ensures GetPressure(p, ISAModel, 0.0) == p.seaLevelPressure
    ensures GetTemperature(p, ISAModel, 0.0) == p.seaLevelTemperature
  {
    var q := p.Div(LAPSE_RATE * 0.0, p.seaLevelTemperature);
    assert q * p.seaLevelTemperature == 0.0;
    assert q == 0.0;
    assert p.pow(1.0 - q, IsaExponent(p)) == 1.0;
  }

  /** The exponential model: sea-level density at altitude 0 and below, and never negative. */
  lemma ExponentialSeaLevel(p: Platform, scale: real, altitude: real)
    requires p.Sound() && scale != 0.0
    requires altitude <= 0.0
    ensures GetDensity(p, ExponentialAtmosphere(scale), altitude) == p.seaLevelDensity
    ensures GetPressure(p, ExponentialAtmosphere(scale), altitude) == p.seaLevelPressure
  {
    var q := p.Div(-0.0, scale);
    assert q * scale == 0.0;
  }

  /** With a positive sea-level density, the exponential density is positive at every altitude. */
  lemma ExponentialDensityPositive(p: Platform, scale: real, altitude: real)
    requires p.Sound() && p.seaLevelDensity > 0.0
    ensures GetDensity(p, ExponentialAtmosphere(scale), altitude) > 0.0
  {
  }

  // ---------------------------------------------------------------------------
  // AtmosphericDragForce

  /** A drag law and an atmosphere (either pointer may be null), the area and the ground height. */
  datatype AtmosphericDragForce = AtmosphericDragForce(
    dragModel: Option<DragLaw>,
    atmosphere: Option<AtmosphereModel>,
    area: real,
    groundY: real)

  /** `AtmosphericDragForce()` with its defaults: quadratic drag, ISA, 0.01 m^2, ground at 0. */
  const DefaultAtmosphericDrag: AtmosphericDragForce :=
    AtmosphericDragForce(Some(DefaultQuadraticDrag), Some(ISAModel), DEFAULT_SPHERE_AREA, 0.0)

  /** `setGround(y)` */
  function SetGround(f: AtmosphericDragForce, groundY: real): (r: AtmosphericDragForce)
    ensures r.groundY == groundY && r.dragModel == f.dragModel && r.atmosphere == f.atmosphere && r.area == f.area
  {
    f.(groundY := groundY)
  }

  /** `setArea(a)` */
  function SetArea(f: AtmosphericDragForce, area: real): (r: AtmosphericDragForce)
    ensures r.area == area && r.dragModel == f.dragModel && r.atmosphere == f.atmosphere && r.groundY == f.groundY
  {
    f.(area := area)
  }

  /** `getAirDensityAt(h)`: the atmosphere's density, or sea-level density without one. */
  function GetAirDensityAt(p: Platform, f: AtmosphericDragForce, altitude: real): (rho: real)
    ensures f.atmosphere.None? ==> rho == p.seaLevelDensity
  {
    if f.atmosphere.Some? then GetDensity(p, f.atmosphere.value, altitude) else p.seaLevelDensity
  }

  /** The force `apply` adds: none unless both a law and an atmosphere are present. */
  function AtmosphericDragContribution(p: Platform, f: AtmosphericDragForce, position: Vec3, v: Vec3): (r: Option<Vec3>)
    ensures r.None? <==> f.dragModel.None? || f.atmosphere.None?
  {
    if f.dragModel.None? || f.atmosphere.None? then None
    else
      var altitude := position.y - f.groundY;
      var airDensity := GetDensity(p, f.atmosphere.value, altitude);
      Some(Calculate(p, f.dragModel.value, v, f.area, airDensity))
  }

  /**
   * Atmospheric drag is a `DragForce` whose density is read from the atmosphere at
   * the body's height above the force's ground.
   */
  lemma AtmosphericDragIsDragForce(p: Platform, f: AtmosphericDragForce, position: Vec3, v: Vec3)
    requires f.atmosphere.Some?
    ensures AtmosphericDragContribution(p, f, position, v)
         == DragForceContribution(p, DragForceGenerator(f.dragModel, f.area, GetAirDensityAt(p, f, position.y - f.groundY)), v)
  {
  }
}
