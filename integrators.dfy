/**
 * The two time steppers of src/math/Integrator.cpp. Both clear the body's
 * accumulator, let an optional force registry fill it, turn force into
 * acceleration, advance position and velocity, clamp at the ground and commit
 * once with `setState`.
 */
module Integrators {
  import opened Wrappers
  import opened Platform
  import opened Vectors
  import opened Constants
  import opened Context
  import opened ForceKinds
  import opened Bodies
  import opened Registry

  /** `forceAccum() / mass()` for a positive mass, zero otherwise. */
  function Acceleration(p: Platform, force: Vec3, mass: real): (a: Vec3)
    ensures mass <= 0.0 ==> a == Zero
    ensures mass > 0.0 ==> Scale(a, mass) == force
  {
    if mass > 0.0 then Divide(p, force, mass) else Zero
  }

  /** The ground check: below the ground the body is put on it and stopped. */
  function GroundClamp(x: Vec3, v: Vec3): (r: (Vec3, Vec3))
    ensures r.0.y >= GROUND
    ensures x.y >= GROUND ==> r == (x, v)
    ensures x.y < GROUND ==> r.0 == Vec3(x.x, GROUND, x.z) && r.1 == Zero
  {
    if x.y < GROUND then (Vec3(x.x, GROUND, x.z), Zero) else (x, v)
  }

  /**
   * The force the registry accumulates on a body in state `s` starting from a
   * cleared accumulator; zero without a registry.
   */
  function RegistryForce(p: Platform, hasRegistry: bool, fs: seq<Force>, s: BodyState): Vec3 {
    if hasRegistry then Accumulate(p, fs, s, EmptyContext, Zero) else Zero
  }

  // ---------------------------------------------------------------------------
  // Euler

  /** Semi-implicit Euler: v' = v + a dt, then x' = x + v' dt, then the ground check. */
  function EulerResult(p: Platform, hasRegistry: bool, fs: seq<Force>, s: BodyState, dt: real): (r: (Vec3, Vec3))
    ensures r.0.y >= GROUND
  {
    var a := Acceleration(p, RegistryForce(p, hasRegistry, fs, s), s.mass);
    var v := Add(s.velocity, Scale(a, dt));
    var x := Add(s.position, Scale(v, dt));
    GroundClamp(x, v)
  }

  /** `EulerIntegrator::step(rb, registry, dt)` */
  method EulerStep(p: Platform, body: Body, registry: ForceRegistry?, dt: real)
    modifies body, registry
    ensures (body.position, body.velocity)
         == EulerResult(p, registry != null, if registry != null then old(registry.forces) else [], old(body.State()), dt)
    ensures body.position.y >= GROUND
    ensures body.forces == Zero
    ensures body.mass == old(body.mass) && body.grounded == old(body.grounded) && body.specs == old(body.specs)
    ensures registry != null ==> registry.forces == AppliedAll(p, old(registry.forces), old(body.State()), EmptyContext)
  {
    ghost var s := body.State();
    ghost var fs := if registry != null then registry.forces else [];
    body.ClearForces();
    if registry != null {
      registry.ApplyForces(p, body);
    }
    assert body.forces == RegistryForce(p, registry != null, fs, s);
    var a := Zero;
    if body.mass > 0.0 {
      a := Divide(p, body.forces, body.mass);
    }
    var v := Add(body.velocity, Scale(a, dt));
    var x := Add(body.position, Scale(v, dt));
    if x.y < GROUND {
      x := x.(y := GROUND);
      v := Zero;
      body.SetState(x, v);
      body.ClearForces();
      return;
    }
    body.SetState(x, v);
    body.ClearForces();
  }

  /** Without any force, an Euler step is uniform motion (above the ground). */
  lemma EulerInertial(p: Platform, s: BodyState, dt: real)
    requires s.mass > 0.0
    requires Add(s.position, Scale(s.velocity, dt)).y >= GROUND
    ensures EulerResult(p, false, [], s, dt) == (Add(s.position, Scale(s.velocity, dt)), s.velocity)
    ensures EulerResult(p, true, [], s, dt) == EulerResult(p, false, [], s, dt)
  {
    ZeroAcceleration(p, s.mass);
    ZeroStep(s.velocity, dt);
  }

  /** Zero force means zero acceleration, for every mass. */
  lemma ZeroAcceleration(p: Platform, mass: real)
    ensures Acceleration(p, Zero, mass) == Zero
  {
    if mass > 0.0 {
      var a := Acceleration(p, Zero, mass);
      assert a.x * mass == 0.0 && a.y * mass == 0.0 && a.z * mass == 0.0;
    }
  }

  lemma ZeroStep(v: Vec3, dt: real)
    ensures Add(v, Scale(Zero, dt)) == v
  {
  }

  // ---------------------------------------------------------------------------
  // RK4

  /**
   * `calcAccel(pos, vel)`: the acceleration of a plain-rigid-body copy of `s`
   * placed at (pos, vel) with a cleared accumulator.
   */
  function StageAcceleration(p: Platform, hasRegistry: bool, fs: seq<Force>, s: BodyState, pos: Vec3, vel: Vec3): Vec3 {
    var stage := s.(position := pos, velocity := vel, specs := None);
    Acceleration(p, RegistryForce(p, hasRegistry, fs, stage), s.mass)
  }

  /** The classical fourth-order combination, weights 1, 2, 2, 1 over 6, then the ground check. */
  function RK4Result(p: Platform, hasRegistry: bool, fs: seq<Force>, s: BodyState, dt: real): (r: (Vec3, Vec3))
    ensures r.0.y >= GROUND
  {
    var x0, v0 := s.position, s.velocity;
    var a0 := StageAcceleration(p, hasRegistry, fs, s, x0, v0);
    var k1v, k1x := Scale(a0, dt), Scale(v0, dt);
    var a1 := StageAcceleration(p, hasRegistry, fs, s, Add(x0, Scale(k1x, 0.5)), Add(v0, Scale(k1v, 0.5)));
    var k2v, k2x := Scale(a1, dt), Scale(Add(v0, Scale(k1v, 0.5)), dt);
    var a2 := StageAcceleration(p, hasRegistry, fs, s, Add(x0, Scale(k2x, 0.5)), Add(v0, Scale(k2v, 0.5)));
    var k3v, k3x := Scale(a2, dt), Scale(Add(v0, Scale(k2v, 0.5)), dt);
    var a3 := StageAcceleration(p, hasRegistry, fs, s, Add(x0, k3x), Add(v0, k3v));
    var k4v, k4x := Scale(a3, dt), Scale(Add(v0, k3v), dt);
    var v := Add(v0, Scale(Add(Add(Add(k1v, Scale(k2v, 2.0)), Scale(k3v, 2.0)), k4v), 1.0 / 6.0));
    var x := Add(x0, Scale(Add(Add(Add(k1x, Scale(k2x, 2.0)), Scale(k3x, 2.0)), k4x), 1.0 / 6.0));
    GroundClamp(x, v)
  }

  /** Two force lists of the same kinds, in the same order. */
  predicate SameKinds(fs: seq<Force>, gs: seq<Force>) {
    |fs| == |gs| && forall i :: 0 <= i < |fs| ==> fs[i].kind == gs[i].kind
  }

  /**
   * `calcAccel`: copies the body as a plain rigid body, sets its state, clears its
   * accumulator and lets the registry act on the copy. The body itself is not
   * touched; the registry's forces only update their records.
   */
  method CalcAccel(p: Platform, body: Body, registry: ForceRegistry?, ghost fs: seq<Force>, pos: Vec3, vel: Vec3)
    returns (a: Vec3)
    requires registry != null ==> SameKinds(registry.forces, fs)
    modifies registry
    ensures registry != null ==> SameKinds(registry.forces, fs)
    ensures registry != null ==>
      registry.forces == AppliedAll(p, old(registry.forces), body.State().(position := pos, velocity := vel, specs := None), EmptyContext)
    ensures a == StageAcceleration(p, registry != null, fs, body.State(), pos, vel)
  {
    var temp := body.CopyAsRigidBody();
    temp.SetState(pos, vel);
    temp.ClearForces();
    ghost var stage := temp.State();
    assert stage == body.State().(position := pos, velocity := vel, specs := None);
    if registry != null {
      ghost var before := registry.forces;
      registry.ApplyForces(p, temp);
      AccumulateSameKinds(p, before, fs, stage, EmptyContext, Zero);
    }
    a := Zero;
    if temp.mass > 0.0 {
      a := Divide(p, temp.forces, temp.mass);
    }
  }

  /** `RK4Integrator::step(rb, registry, dt)`: four stage evaluations, one commit. */
  method RK4Step(p: Platform, body: Body, registry: ForceRegistry?, dt: real)
    modifies body, registry
    ensures (body.position, body.velocity)
         == RK4Result(p, registry != null, if registry != null then old(registry.forces) else [], old(body.State()), dt)
    ensures body.position.y >= GROUND
    ensures body.forces == Zero
    ensures body.mass == old(body.mass) && body.grounded == old(body.grounded) && body.specs == old(body.specs)
    ensures registry != null ==> SameKinds(registry.forces, old(registry.forces))
  {
    ghost var fs := if registry != null then registry.forces else [];
    body.ClearForces();
    ghost var s := body.State();
    var x0 := body.position;
    var v0 := body.velocity;

    var a0 := CalcAccel(p, body, registry, fs, x0, v0);
    var k1v := Scale(a0, dt);
    var k1x := Scale(v0, dt);

    var a1 := CalcAccel(p, body, registry, fs, Add(x0, Scale(k1x, 0.5)), Add(v0, Scale(k1v, 0.5)));
    var k2v := Scale(a1, dt);
    var k2x := Scale(Add(v0, Scale(k1v, 0.5)), dt);

    var a2 := CalcAccel(p, body, registry, fs, Add(x0, Scale(k2x, 0.5)), Add(v0, Scale(k2v, 0.5)));
    var k3v := Scale(a2, dt);
    var k3x := Scale(Add(v0, Scale(k2v, 0.5)), dt);

    var a3 := CalcAccel(p, body, registry, fs, Add(x0, k3x), Add(v0, k3v));
    var k4v := Scale(a3, dt);
    var k4x := Scale(Add(v0, k3v), dt);

    var v := Add(v0, Scale(Add(Add(Add(k1v, Scale(k2v, 2.0)), Scale(k3v, 2.0)), k4v), 1.0 / 6.0));
    var x := Add(x0, Scale(Add(Add(Add(k1x, Scale(k2x, 2.0)), Scale(k3x, 2.0)), k4x), 1.0 / 6.0));

    if x.y < GROUND {
      x := x.(y := GROUND);
      v := Zero;
      body.SetState(x, v);
      body.ClearForces();
      return;
    }
    body.SetState(x, v);
    body.ClearForces();
  }

  /** Without any force, an RK4 step is uniform motion too: x0 + v0 dt and v0 (above the ground). */
  lemma RK4Inertial(p: Platform, s: BodyState, dt: real)
    requires s.mass > 0.0
    requires Add(s.position, Scale(s.velocity, dt)).y >= GROUND
    ensures RK4Result(p, false, [], s, dt) == (Add(s.position, Scale(s.velocity, dt)), s.velocity)
  {
    var x0, v0 := s.position, s.velocity;
    ZeroAcceleration(p, s.mass);
    forall pos, vel
      ensures StageAcceleration(p, false, [], s, pos, vel) == Zero
    {
    }
    var z := Scale(Zero, dt);
    assert z == Zero;
    assert Add(v0, Scale(Zero, 0.5)) == v0;
    var d := Scale(v0, dt);
    var sum := Add(Add(Add(d, Scale(d, 2.0)), Scale(d, 2.0)), d);
    assert Scale(sum, 1.0 / 6.0) == d;
    var vsum := Add(Add(Add(Zero, Scale(Zero, 2.0)), Scale(Zero, 2.0)), Zero);
    assert vsum == Zero;
  }
}
