/**
 * `ForceRegistry` (src/dynamics/forces/ForceRegistry.cpp): an ordered list of
 * owned forces that a pass applies to a rigid body in registration order.
 */
module Registry {
  import opened Wrappers
  import opened Platform
  import opened Vectors
  import opened Context
  import opened ForceKinds
  import Bodies
  import Lookup

  class ForceRegistry {
    var forces: seq<Force>

    /** An empty registry. */
    constructor ()
      ensures forces == []
    {
      forces := [];
    }

    /** `count()` */
    function Count(): nat
      reads this
    {
      |forces|
    }

    /** `add(force)`: a null force is ignored; any other is appended behind the existing ones. */
    method Add(force: Option<Force>)
      modifies this
      ensures force.None? ==> forces == old(forces)
      ensures force.Some? ==> forces == old(forces) + [force.value]
      ensures force.Some? ==> Count() == old(Count()) + 1
    {
      if force.Some? {
        forces := forces + [force.value];
      }
    }

    /** `remove(index)`: erases the force at `index` if there is one, and says whether it did. */
    method Remove(index: nat) returns (removed: bool)
      modifies this
      ensures removed <==> index < old(Count())
      ensures removed ==> forces == old(forces)[..index] + old(forces)[index + 1..]
      ensures removed ==> Count() == old(Count()) - 1
      ensures !removed ==> forces == old(forces)
    {
      if index < |forces| {
        forces := forces[..index] + forces[index + 1..];
        return true;
      }
      return false;
    }

    /** `clear()` */
    method Clear()
      modifies this
      ensures forces == [] && Count() == 0
    {
      forces := [];
    }

    /**
     * `applyForces(rb, dt)`: every force, in order, adds to the body's accumulator.
     * The registry's forces are called without a context, so they see an empty one.
     */
    method ApplyForces(p: Platform, body: Bodies.Body)
      modifies this, body
      ensures body.State() == old(body.State())
      ensures body.forces == Accumulate(p, old(forces), old(body.State()), EmptyContext, old(body.forces))
      ensures forces == AppliedAll(p, old(forces), old(body.State()), EmptyContext)
    {
      forces := ApplyAll(p, forces, body, EmptyContext);
    }

    /** `clearAccumulators(rb)` */
    method ClearAccumulators(body: Bodies.Body)
      modifies body
      ensures body.forces == Zero
      ensures body.State() == old(body.State())
    {
      body.ClearForces();
    }

    /** `get(index)`: the force at `index`, or null past the end. */
    function Get(index: nat): (r: Option<Force>)
      reads this
      ensures r.None? <==> index >= Count()
      ensures r.Some? ==> r.value == forces[index]
    {
      if index < |forces| then Some(forces[index]) else None
    }

    /** `getByName(name)`: the first force with that name, or null. */
    method GetByName(name: string) returns (r: Option<Force>)
      ensures Lookup.FirstNamed(forces, ForceName, name).None? ==> r.None?
      ensures Lookup.FirstNamed(forces, ForceName, name).Some? ==>
        r == Some(forces[Lookup.FirstNamed(forces, ForceName, name).value])
    {
      r := Lookup.FindNamed(forces, ForceName, name);
    }
  }
}
