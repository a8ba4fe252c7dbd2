/**
 * The two gravity generators: `Gravity` (src/dynamics/forces/Gravity.h), which
 * prefers the context's gravity magnitude, and `GravityForce`
 * (src/dynamics/forces/GravityForce.h), which uses a fixed vector.
 */
module GravityForces {
  import opened Wrappers
  import opened Vectors
  import opened Constants
  import opened Context

  /**
   * The force `Gravity::apply` adds: nothing for a non-positive mass, otherwise
   * m (0, -g, 0) with g from the context, or m GRAVITY without one.
   */
  function GravitationalForce(mass: real, ctx: ContextState): (f: Option<Vec3>)
    ensures mass <= 0.0 <==> f.None?
    ensures f.Some? ==> f.value.x == 0.0 && f.value.z == 0.0
    ensures f.Some? && ctx.gravity.Some? ==> f.value.y == -(mass * ctx.gravity.value)
    ensures f.Some? && ctx.gravity.None? ==> f.value.y == mass * GRAVITY.y
  {
    if mass > 0.0 then
      var g := if ctx.gravity.Some? then Vec3(0.0, -ctx.gravity.value, 0.0) else GRAVITY;
      Some(ScaleLeft(mass, g))
    else None
  }

  /** `GravityForce()` with its default argument: the configured (0, -9.81, 0). */
  const DefaultGravityVector: Vec3 := CONFIG_GRAVITY

  /** The force `GravityForce::apply` adds: `gravity * m` for a positive mass, nothing otherwise. */
  function GravityForceContribution(gravity: Vec3, mass: real): (f: Option<Vec3>)
    ensures mass <= 0.0 <==> f.None?
    ensures f.Some? ==> f.value == Vec3(gravity.x * mass, gravity.y * mass, gravity.z * mass)
  {
    if mass > 0.0 then Some(Scale(gravity, mass)) else None
  }

  /**
   * The two generations disagree: without a context gravity, `Gravity` pulls with
   * 9.80665 m/s^2 while a default `GravityForce` pulls with 9.81 m/s^2.
   */
  lemma GravityGenerationsDiffer(mass: real, ctx: ContextState)
    requires mass > 0.0 && ctx.gravity.None?
    ensures var a := GravitationalForce(mass, ctx).value;
      var b := GravityForceContribution(DefaultGravityVector, mass).value;
      a.y - b.y == mass * 0.00335 && a.y > b.y
  {
  }

  /** A context that reports the standard 9.80665 makes `Gravity` behave as without one. */
  lemma StandardContextGravity(mass: real, ctx: ContextState)
    requires ctx.gravity == Some(9.80665)
    ensures GravitationalForce(mass, ctx) == GravitationalForce(mass, ctx.(gravity := None))
  {
  }
}
