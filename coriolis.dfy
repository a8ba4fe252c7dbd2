/**
 * The Coriolis force (src/dynamics/forces/Coriolis.h) in the East-Up-North frame:
 * F = m (-2 omega x v), with omega = Omega (0, sin lat, cos lat).
 */
module Coriolis {
  import opened Wrappers
  import opened Platform
  import opened Vectors
  import opened Constants
  import opened Context

  /** Earth's angular velocity at a latitude (radians), as (0, up, north). */
  function EarthRotation(p: Platform, latitude: real): (omega: Vec3)
    ensures omega.x == 0.0
    ensures omega.y == EARTH_ANGULAR_SPEED * p.sin(latitude)
    ensures omega.z == EARTH_ANGULAR_SPEED * p.cos(latitude)
  {
    Vec3(0.0, EARTH_ANGULAR_SPEED * p.sin(latitude), EARTH_ANGULAR_SPEED * p.cos(latitude))
  }

  /** The Coriolis acceleration -2 (omega x v). */
  function CoriolisAcceleration(p: Platform, latitude: real, v: Vec3): Vec3 {
    ScaleLeft(-2.0, Cross(EarthRotation(p, latitude), v))
  }

  /**
   * The force `Coriolis::apply` adds: nothing without a latitude in the context
   * (no geographic environment ran) or for a non-positive mass.
   */
  function CoriolisForce(p: Platform, mass: real, v: Vec3, ctx: ContextState): (f: Option<Vec3>)
    ensures f.None? <==> ctx.latitude.None? || mass <= 0.0
    ensures f.Some? ==> f.value == Scale(CoriolisAcceleration(p, ctx.latitude.value, v), mass)
  {
    if ctx.latitude.None? then None
    else if mass > 0.0 then Some(Scale(CoriolisAcceleration(p, ctx.latitude.value, v), mass))
    else None
  }

  /**
   * The Coriolis force does no work: it is perpendicular to the velocity, and
   * also to Earth's rotation axis.
   */
  lemma CoriolisDoesNoWork(p: Platform, mass: real, v: Vec3, ctx: ContextState)
    requires CoriolisForce(p, mass, v, ctx).Some?
    ensures Dot(CoriolisForce(p, mass, v, ctx).value, v) == 0.0
    ensures Dot(CoriolisForce(p, mass, v, ctx).value, EarthRotation(p, ctx.latitude.value)) == 0.0
  {
    var omega := EarthRotation(p, ctx.latitude.value);
    var c := Cross(omega, v);
    CrossPerpendicular(omega, v);
    DotScale(c, -2.0, v);
    DotScale(c, -2.0, omega);
    var a := ScaleLeft(-2.0, c);
    DotScale(a, mass, v);
    DotScale(a, mass, omega);
  }

  /** A body at rest feels no Coriolis force. */
  lemma CoriolisAtRest(p: Platform, mass: real, ctx: ContextState)
    requires ctx.latitude.Some? && mass > 0.0
    ensures CoriolisForce(p, mass, Zero, ctx) == Some(Zero)
  {
    var omega := EarthRotation(p, ctx.latitude.value);
    CrossWithZero(omega);
    var a := CoriolisAcceleration(p, ctx.latitude.value, Zero);
    assert a == Scale(Zero, -2.0);
    assert a == Zero;
    assert Scale(a, mass) == Zero;
    assert CoriolisForce(p, mass, Zero, ctx) == Some(Scale(a, mass));
  }

  /** The force is linear in the mass: twice the mass, twice the force. */
  lemma CoriolisScalesWithMass(p: Platform, mass: real, v: Vec3, ctx: ContextState)
    requires ctx.latitude.Some? && mass > 0.0
    ensures CoriolisForce(p, 2.0 * mass, v, ctx).value == Scale(CoriolisForce(p, mass, v, ctx).value, 2.0)
  {
    var a := CoriolisAcceleration(p, ctx.latitude.value, v);
    assert a.x * (2.0 * mass) == (a.x * mass) * 2.0;
    assert a.y * (2.0 * mass) == (a.y * mass) * 2.0;
    assert a.z * (2.0 * mass) == (a.z * mass) * 2.0;
  }
}
