/**
 * Constant-coefficient quadratic air drag (`Drag`, src/dynamics/forces/Drag.h):
 * F = -0.5 rho Cd A |v_rel| v_rel, relative to the context wind.
 */
module ConstantDrag {
  import opened Wrappers
  import opened Platform
  import opened Vectors
  import opened Constants
  import opened Context

  /** The body velocity relative to the context wind, or the velocity itself without wind. */
  function RelativeVelocity(v: Vec3, ctx: ContextState): (rel: Vec3)
    ensures ctx.wind.Some? ==> Add(rel, ctx.wind.value) == v
    ensures ctx.wind.None? ==> rel == v
  {
    if ctx.wind.Some? then Sub(v, ctx.wind.value) else v
  }

  /** The context density, or the ISA sea-level density 1.225 without one. */
  function DensityOrDefault(ctx: ContextState): real {
    ctx.airDensity.GetOr(BASE_ATMOSPHERIC_DENSITY)
  }

  /** The drag parameters: coefficient and reference area. */
  datatype AirDrag = AirDrag(dragCoefficient: real, area: real)

  /** `Drag()` with its default arguments: a sphere (Cd 0.47, area 0.01 m^2). */
  const DefaultAirDrag: AirDrag := AirDrag(DEFAULT_SPHERE_CD, DEFAULT_SPHERE_AREA)

  /** `-0.5 rho Cd A |v|`: the factor that scales the relative velocity into the drag force. */
  function DragFactor(rho: real, cd: real, area: real, speed: real): real {
    -0.5 * rho * cd * area * speed
  }

  /** The force `Drag::apply` adds: none below 1e-6 m/s relative speed. */
  function AirDragForce(p: Platform, d: AirDrag, v: Vec3, ctx: ContextState): (f: Option<Vec3>)
    ensures f.None? <==> Length(p, RelativeVelocity(v, ctx)) < DRAG_MIN_SPEED
  {
    var rel := RelativeVelocity(v, ctx);
    var speed := Length(p, rel);
    if speed < DRAG_MIN_SPEED then None
    else Some(Scale(rel, DragFactor(DensityOrDefault(ctx), d.dragCoefficient, d.area, speed)))
  }

  /**
   * For non-negative density, coefficient and area, the force points against the
   * relative velocity: it can only slow the body relative to the air.
   */
  lemma AirDragOpposesMotion(p: Platform, d: AirDrag, v: Vec3, ctx: ContextState)
    requires p.Sound()
    requires DensityOrDefault(ctx) >= 0.0 && d.dragCoefficient >= 0.0 && d.area >= 0.0
    requires AirDragForce(p, d, v, ctx).Some?
    ensures Dot(AirDragForce(p, d, v, ctx).value, RelativeVelocity(v, ctx)) <= 0.0
  {
    var rel := RelativeVelocity(v, ctx);
    var speed := Length(p, rel);
    LengthFacts(p, rel);
    var k := DragFactor(DensityOrDefault(ctx), d.dragCoefficient, d.area, speed);
    FactorNonPositive(DensityOrDefault(ctx), d.dragCoefficient, d.area, speed);
    DotScale(rel, k, rel);
    LengthSquaredNonNegative(rel);
    NonPositiveTimesNonNegative(k, Dot(rel, rel));
  }

  lemma FactorNonPositive(rho: real, cd: real, area: real, speed: real)
    requires rho >= 0.0 && cd >= 0.0 && area >= 0.0 && speed >= 0.0
    ensures DragFactor(rho, cd, area, speed) <= 0.0
  {
    var a := 0.5 * rho;
    assert a >= 0.0;
    var b := a * cd;
    assert b >= 0.0;
    var c := b * area;
    assert c >= 0.0;
    assert c * speed >= 0.0;
  }

  lemma NonPositiveTimesNonNegative(k: real, x: real)
    requires k <= 0.0 && x >= 0.0
    ensures k * x <= 0.0
  {
    assert (-k) * x >= 0.0;
  }

  /** The magnitude 0.5 rho Cd A |v|^2 of the drag force. */
  function DragMagnitude(rho: real, cd: real, area: real, speed: real): real {
    0.5 * rho * cd * area * speed * speed
  }

  /** The force's squared length is the square of 0.5 rho Cd A |v_rel|^2. */
  lemma AirDragMagnitude(p: Platform, d: AirDrag, v: Vec3, ctx: ContextState)
    requires p.Sound()
    requires AirDragForce(p, d, v, ctx).Some?
    ensures var speed := Length(p, RelativeVelocity(v, ctx));
      var m := DragMagnitude(DensityOrDefault(ctx), d.dragCoefficient, d.area, speed);
      LengthSquared(AirDragForce(p, d, v, ctx).value) == m * m
  {
    var rel := RelativeVelocity(v, ctx);
    var speed := Length(p, rel);
    LengthFacts(p, rel);
    var k := DragFactor(DensityOrDefault(ctx), d.dragCoefficient, d.area, speed);
    LengthSquaredScale(rel, k);
    var c := 0.5 * DensityOrDefault(ctx) * d.dragCoefficient * d.area;
    assert k == -(c * speed);
    assert DragMagnitude(DensityOrDefault(ctx), d.dragCoefficient, d.area, speed) == c * (speed * speed);
    assert k * k == c * c * (speed * speed);
    assert LengthSquared(Scale(rel, k)) == k * k * (speed * speed);
  }

  /** With positive density, area and speed, a larger coefficient gives a strictly larger drag. */
  lemma DragMagnitudeIncreasesWithCd(rho: real, cd1: real, cd2: real, area: real, speed: real)
    requires rho > 0.0 && area > 0.0 && speed > 0.0 && cd1 < cd2
    ensures DragMagnitude(rho, cd1, area, speed) < DragMagnitude(rho, cd2, area, speed)
  {
    var c := 0.5 * rho * area * speed * speed;
    PositiveProduct(0.5 * rho, area);
    PositiveProduct(0.5 * rho * area, speed);
    PositiveProduct(0.5 * rho * area * speed, speed);
    assert c > 0.0;
    assert DragMagnitude(rho, cd1, area, speed) == c * cd1;
    assert DragMagnitude(rho, cd2, area, speed) == c * cd2;
    assert c * cd2 - c * cd1 == c * (cd2 - cd1);
    PositiveProduct(c, cd2 - cd1);
  }

  /** With positive density, coefficient and speed, a larger area gives a strictly larger drag. */
  lemma DragMagnitudeIncreasesWithArea(rho: real, cd: real, a1: real, a2: real, speed: real)
    requires rho > 0.0 && cd > 0.0 && speed > 0.0 && a1 < a2
    ensures DragMagnitude(rho, cd, a1, speed) < DragMagnitude(rho, cd, a2, speed)
  {
    var c := 0.5 * rho * cd * speed * speed;
    PositiveProduct(0.5 * rho, cd);
    PositiveProduct(0.5 * rho * cd, speed);
    PositiveProduct(0.5 * rho * cd * speed, speed);
    assert DragMagnitude(rho, cd, a1, speed) == c * a1;
    assert DragMagnitude(rho, cd, a2, speed) == c * a2;
    assert c * a2 - c * a1 == c * (a2 - a1);
    PositiveProduct(c, a2 - a1);
  }

  lemma PositiveProduct(a: real, b: real)
    requires a > 0.0 && b > 0.0
    ensures a * b > 0.0
  {
  }

  /** `setDragCoefficient(cd)`: only the coefficient changes. */
  function SetDragCoefficient(d: AirDrag, cd: real): (r: AirDrag)
    ensures r.dragCoefficient == cd && r.area == d.area
  {
    d.(dragCoefficient := cd)
  }

  /** `setArea(a)`: only the area changes. */
  function SetArea(d: AirDrag, area: real): (r: AirDrag)
    ensures r.area == area && r.dragCoefficient == d.dragCoefficient
  {
    d.(area := area)
  }
}
