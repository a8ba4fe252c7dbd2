/**
 * `PhysicsWorld` (src/dynamics/PhysicsWorld.cpp): ordered forces and environment
 * providers, and the two-phase pass that first rebuilds the context and then
 * applies every force with it.
 */
module World {
  import opened Wrappers
  import opened Platform
  import opened Vectors
  import opened Context
  import opened Environments
  import opened ForceKinds
  import Bodies
  import Lookup

  function EnvironmentName(e: Environment): string {
    e.Name()
  }

  class PhysicsWorld {
    var forces: seq<Force>
    var environments: seq<Environment>
    /** `m_context`, owned by the world and rebuilt on every pass. */
    const context: PhysicsContext

    /** An empty world. */
    constructor ()
      ensures forces == [] && environments == []
      ensures fresh(context)
    {
      forces := [];
      environments := [];
      context := new PhysicsContext();
    }

    /** `forceCount()` */
    function ForceCount(): nat
      reads this
    {
      |forces|
    }

    /** `environmentCount()` */
    function EnvironmentCount(): nat
      reads this
    {
      |environments|
    }

    /** `addForce(force)`: a null force is ignored; the environments are untouched. */
    method AddForce(force: Option<Force>)
      modifies this
      ensures force.None? ==> forces == old(forces)
      ensures force.Some? ==> forces == old(forces) + [force.value]
      ensures environments == old(environments)
    {
      if force.Some? {
        forces := forces + [force.value];
      }
    }

    /** `addEnvironment(env)`: a null provider is ignored; the forces are untouched. */
    method AddEnvironment(env: Option<Environment>)
      modifies this
      ensures env.None? ==> environments == old(environments)
      ensures env.Some? ==> environments == old(environments) + [env.value]
      ensures forces == old(forces)
    {
      if env.Some? {
        environments := environments + [env.value];
      }
    }

    /** `clear()`: both lists become empty. */
    method Clear()
      modifies this
      ensures forces == [] && environments == []
      ensures ForceCount() == 0 && EnvironmentCount() == 0
    {
      forces := [];
      environments := [];
    }

    /** `SpinDrift::addTo(world)`: Lift, then Magnus, behind the existing forces. */
    method AddSpinDrift()
      modifies this
      ensures forces == old(forces) + [NewForce(Lift), NewForce(Magnus)]
      ensures environments == old(environments)
    {
      AddForce(Some(NewForce(Lift)));
      AddForce(Some(NewForce(Magnus)));
    }

    /**
     * `applyForces(body, dt)`: the context is reset, every environment updates it
     * in registration order, and then every force is applied in registration
     * order with the finished context. Nothing from an earlier pass survives in
     * the context, and the lists keep their elements and order.
     */
    method ApplyForces(p: Platform, body: Bodies.Body)
      modifies this, context, body
      ensures environments == old(environments)
      ensures context.State() == EnvPass(p, environments, old(body.position), EmptyContext)
      ensures body.State() == old(body.State())
      ensures body.forces == Accumulate(p, old(forces), old(body.State()), context.State(), old(body.forces))
      ensures forces == AppliedAll(p, old(forces), old(body.State()), context.State())
    {
      context.Reset();
      var i := 0;
      while i < |environments|
        invariant 0 <= i <= |environments|
        invariant environments == old(environments) && forces == old(forces)
        invariant body.State() == old(body.State()) && body.forces == old(body.forces)
        invariant context.State() == EnvPass(p, environments[..i], body.position, EmptyContext)
      {
        ApplyUpdate(p, environments[i], body.position, context);
        assert environments[..i + 1][..i] == environments[..i];
        i := i + 1;
      }
      assert environments[..i] == environments;
      forces := ApplyAll(p, forces, body, context.State());
    }

    /** `getForce(name)`: the first force with that name, or null. */
    method GetForce(name: string) returns (r: Option<Force>)
      ensures Lookup.FirstNamed(forces, ForceName, name).None? ==> r.None?
      ensures Lookup.FirstNamed(forces, ForceName, name).Some? ==>
        r == Some(forces[Lookup.FirstNamed(forces, ForceName, name).value])
    {
      r := Lookup.FindNamed(forces, ForceName, name);
    }

    /** `getEnvironment(name)`: the first provider with that name, or null. */
    method GetEnvironment(name: string) returns (r: Option<Environment>)
      ensures Lookup.FirstNamed(environments, EnvironmentName, name).None? ==> r.None?
      ensures Lookup.FirstNamed(environments, EnvironmentName, name).Some? ==>
        r == Some(environments[Lookup.FirstNamed(environments, EnvironmentName, name).value])
    {
      r := Lookup.FindNamed(environments, EnvironmentName, name);
    }
  }

  /**
   * After `SpinDrift::addTo`, a pass adds the lift and then the Magnus force on
   * top of what the earlier forces add.
   */
  lemma SpinDriftAddsLiftThenMagnus(p: Platform, fs: seq<Force>, b: Bodies.BodyState, ctx: ContextState, acc: Vec3)
    ensures Accumulate(p, fs + [NewForce(Lift), NewForce(Magnus)], b, ctx, acc)
         == AddContribution(AddContribution(Accumulate(p, fs, b, ctx, acc), Contribution(p, Lift, b, ctx)),
                            Contribution(p, Magnus, b, ctx))
  {
    var extra := [NewForce(Lift), NewForce(Magnus)];
    AccumulateConcat(p, fs, extra, b, ctx, acc);
    assert extra[..1] == [NewForce(Lift)];
    assert extra[..1][..0] == [];
  }

  /** Once a wind provider has run, the context holds a wind. */
  lemma {:induction false} WindIsWritten(p: Platform, envs: seq<Environment>, position: Vec3, s: ContextState)
    ensures forall e :: e in envs && e.Wind? ==> EnvPass(p, envs, position, s).wind.Some?
    decreases |envs|
  {
    if |envs| > 0 {
      var init := envs[..|envs| - 1];
      WindIsWritten(p, init, position, s);
      forall e | e in envs && e.Wind?
        ensures EnvPass(p, envs, position, s).wind.Some?
      {
        if e != envs[|envs| - 1] {
          assert e in init;
        }
      }
    }
  }
}
