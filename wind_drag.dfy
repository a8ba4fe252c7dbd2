/**
 * Drag relative to a fixed wind (`WindDragForce`, src/dynamics/forces/WindDragForce.h):
 * a drag law applied to v - wind, with the density taken from an optional
 * atmosphere model or a stored constant.
 */
module WindDrag {
  import opened Wrappers
  import opened Platform
  import opened Vectors
  import opened Constants
  import opened DragLaws
  import opened AtmosphericDrag
  import Bodies

  /**
   * The wind velocity, the drag law, the reference area, the fallback density,
   * the optional atmosphere and the ground height. The constructor never leaves
   * the law null and nothing resets it, so the law is always present.
   */
  datatype WindDragForce = WindDragForce(
    windVelocity: Vec3,
    dragModel: DragLaw,
    area: real,
    density: real,
    atmosphere: Option<AtmosphereModel>,
    groundY: real)

  /** `WindDragForce(wind, model, area, density, atmosphere, groundY)`: a null law becomes quadratic drag. */
  function NewWindDrag(windVelocity: Vec3, dragModel: Option<DragLaw>, area: real, density: real,
                       atmosphere: Option<AtmosphereModel>, groundY: real): (w: WindDragForce)
    ensures dragModel.Some? ==> w.dragModel == dragModel.value
    ensures dragModel.None? ==> w.dragModel == DefaultQuadraticDrag
    ensures w.windVelocity == windVelocity && w.area == area && w.density == density
    ensures w.atmosphere == atmosphere && w.groundY == groundY
  {
    WindDragForce(windVelocity, dragModel.GetOr(DefaultQuadraticDrag), area, density, atmosphere, groundY)
  }

  /** `WindDragForce()` with every default: calm air, quadratic drag, 0.01 m^2, sea-level density. */
  function DefaultWindDrag(p: Platform): (w: WindDragForce)
    ensures w.windVelocity == Zero && w.dragModel == DefaultQuadraticDrag
    ensures w.area == DEFAULT_SPHERE_AREA && w.density == p.seaLevelDensity
    ensures w.atmosphere.None? && w.groundY == 0.0
  {
    NewWindDrag(Zero, None, DEFAULT_SPHERE_AREA, p.seaLevelDensity, None, 0.0)
  }

  /** `setWindVelocity(w)`: `getWindVelocity()` then returns `w`; nothing else changes. */
  function SetWindVelocity(f: WindDragForce, w: Vec3): (r: WindDragForce)
    ensures r.windVelocity == w
    ensures r == f.(windVelocity := w)
  {
    f.(windVelocity := w)
  }

  /** `setAtmosphereModel(m)` */
  function SetAtmosphereModel(f: WindDragForce, atmosphere: Option<AtmosphereModel>): (r: WindDragForce)
    ensures r.atmosphere == atmosphere
    ensures r == f.(atmosphere := atmosphere)
  {
    f.(atmosphere := atmosphere)
  }

  /** The density `apply` uses: the atmosphere's at the body's height above ground, or the stored one. */
  function WindDensity(p: Platform, f: WindDragForce, y: real): (rho: real)
    ensures f.atmosphere.None? ==> rho == f.density
    ensures f.atmosphere.Some? ==> rho == GetDensity(p, f.atmosphere.value, y - f.groundY)
  {
    if f.atmosphere.Some? then GetDensity(p, f.atmosphere.value, y - f.groundY) else f.density
  }

  /** The force `apply` adds: nothing for a grounded body, the law on v - wind otherwise. */
  function WindDragContribution(p: Platform, f: WindDragForce, s: Bodies.BodyState): (r: Option<Vec3>)
    ensures r.None? <==> s.grounded
  {
    if s.grounded then None
    else Some(Calculate(p, f.dragModel, Sub(s.velocity, f.windVelocity), f.area, WindDensity(p, f, s.position.y)))
  }

  /**
   * Wind drag is a `DragForce` with the same law and area, at the density the
   * wind force chooses, applied to the velocity relative to the wind.
   */
  lemma WindDragIsDragForceOnRelativeVelocity(p: Platform, f: WindDragForce, s: Bodies.BodyState)
    requires !s.grounded
    ensures WindDragContribution(p, f, s)
         == DragForceContribution(p, DragForceGenerator(Some(f.dragModel), f.area, WindDensity(p, f, s.position.y)),
                                  Sub(s.velocity, f.windVelocity))
  {
  }

  /** Moving with the wind, a body feels no quadratic wind drag. */
  lemma NoDragWhenMovingWithWind(p: Platform, f: WindDragForce, s: Bodies.BodyState)
    requires p.sqrt(0.0) == 0.0
    requires !s.grounded && f.dragModel.QuadraticDrag?
    requires s.velocity == f.windVelocity
    ensures WindDragContribution(p, f, s) == Some(Zero)
  {
    var rel := Sub(s.velocity, f.windVelocity);
    var rho := WindDensity(p, f, s.position.y);
    assert WindDragContribution(p, f, s) == Some(Calculate(p, f.dragModel, rel, f.area, rho));
    ZeroBelowThreshold(p, f.dragModel.dragCoefficient, rel, f.area, rho);
  }

  lemma ZeroBelowThreshold(p: Platform, cd: real, v: Vec3, area: real, density: real)
    requires p.sqrt(0.0) == 0.0 && v == Zero
    ensures Calculate(p, QuadraticDrag(cd), v, area, density) == Zero
  {
    assert v.x * v.x + v.y * v.y + v.z * v.z == 0.0;
  }

  /** Against a body at rest, linear wind drag pushes along the wind: -b (0 - w) = b w. */
  lemma LinearDragPushesAlongWind(p: Platform, b: real, f: WindDragForce, s: Bodies.BodyState)
    requires !s.grounded && f.dragModel == LinearDrag(b)
    requires s.velocity == Zero
    ensures WindDragContribution(p, f, s) == Some(Scale(f.windVelocity, b))
  {
    var w := f.windVelocity;
    var rel := Sub(s.velocity, w);
    var rho := WindDensity(p, f, s.position.y);
    assert WindDragContribution(p, f, s) == Some(Calculate(p, f.dragModel, rel, f.area, rho));
    assert Calculate(p, f.dragModel, rel, f.area, rho) == Scale(rel, -b);
    assert rel == Vec3(0.0 - w.x, 0.0 - w.y, 0.0 - w.z);
    assert (0.0 - w.x) * (-b) == w.x * b;
    assert (0.0 - w.y) * (-b) == w.y * b;
    assert (0.0 - w.z) * (-b) == w.z * b;
    assert Scale(rel, -b) == Vec3(w.x * b, w.y * b, w.z * b);
    assert Scale(w, b) == Vec3(w.x * b, w.y * b, w.z * b);
    assert WindDragContribution(p, f, s) == Some(Scale(w, b));
  }
}
