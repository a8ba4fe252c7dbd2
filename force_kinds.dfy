/**
 * The `IForce` family as one datatype: what each force adds to a body, its
 * `getName()`, the `m_force` record that some of them keep, and the sum a pass
 * over an ordered list of forces accumulates.
 */
module ForceKinds {
  import opened Wrappers
  import opened Platform
  import opened Vectors
  import opened Context
  import Bodies
  import GravityForces
  import ConstantDrag
  import MachDrag
  import AtmosphericDrag
  import WindDrag
  import Coriolis
  import SpinDrift

  /** The forces of src/dynamics/forces/, each with its own parameters. */
  datatype ForceKind =
    | Gravitational                                            // Gravity.h
    | FixedGravity(gravity: Vec3)                              // GravityForce.h
    | ConstantAirDrag(airDrag: ConstantDrag.AirDrag)           // Drag.h
    | MachAirDrag(machDrag: MachDrag.MachDrag)                 // drag/Drag.h
    | AtmosphericAirDrag(atmospheric: AtmosphericDrag.AtmosphericDragForce)
    | WindAirDrag(wind: WindDrag.WindDragForce)
    | CoriolisEffect                                           // Coriolis.h
    | Lift                                                     // SpinDrift.h
    | Magnus                                                   // SpinDrift.h
  {
    /** `getName()`; both air drags are called "Air Drag". */
    function Name(): string {
      match this
      case Gravitational => "Gravitational"
      case FixedGravity(_) => "Gravity"
      case ConstantAirDrag(_) => "Air Drag"
      case MachAirDrag(_) => "Air Drag"
      case AtmosphericAirDrag(_) => "Atmospheric Drag"
      case WindAirDrag(_) => "Wind Drag"
      case CoriolisEffect => "Coriolis"
      case Lift => "Lift"
      case Magnus => "Magnus"
    }

    /** Whether `apply` also stores what it added in `m_force`. */
    predicate RecordsForce() {
      Gravitational? || CoriolisEffect? || Lift? || Magnus?
    }
  }

  /**
   * What one `apply` adds to the accumulator of a body in state `b`, given the
   * pass's context; None when a guard stops it.
   */
  function Contribution(p: Platform, kind: ForceKind, b: Bodies.BodyState, ctx: ContextState): (f: Option<Vec3>)
    ensures kind.MachAirDrag? ==> f.Some?
    ensures (kind.Gravitational? || kind.FixedGravity? || kind.CoriolisEffect?) && b.mass <= 0.0 ==> f.None?
    ensures (kind.Lift? || kind.Magnus?) && b.specs.None? ==> f.None?
    ensures kind.WindAirDrag? && b.grounded ==> f.None?
  {
    match kind
    case Gravitational => GravityForces.GravitationalForce(b.mass, ctx)
    case FixedGravity(g) => GravityForces.GravityForceContribution(g, b.mass)
    case ConstantAirDrag(d) => ConstantDrag.AirDragForce(p, d, b.velocity, ctx)
    case MachAirDrag(d) => Some(MachDrag.MachDragForce(p, d, b.velocity, ctx))
    case AtmosphericAirDrag(f) => AtmosphericDrag.AtmosphericDragContribution(p, f, b.position, b.velocity)
    case WindAirDrag(w) => WindDrag.WindDragContribution(p, w, b)
    case CoriolisEffect => Coriolis.CoriolisForce(p, b.mass, b.velocity, ctx)
    case Lift => SpinDrift.LiftForce(p, b, ctx)
    case Magnus => SpinDrift.MagnusForce(p, b, ctx)
  }

  /** A registered force: its kind and the `m_force` it last recorded (initially zero). */
  datatype Force = Force(kind: ForceKind, lastForce: Vec3)

  /** A newly created force: nothing recorded yet. */
  function NewForce(kind: ForceKind): (f: Force)
    ensures f.kind == kind && f.lastForce == Zero
  {
    Force(kind, Zero)
  }

  function ForceName(f: Force): string {
    f.kind.Name()
  }

  /** The force after one `apply`: a recording force remembers what it added; nothing else changes. */
  function Applied(p: Platform, f: Force, b: Bodies.BodyState, ctx: ContextState): (r: Force)
    ensures r.kind == f.kind
    ensures r.lastForce != f.lastForce ==> f.kind.RecordsForce() && Contribution(p, f.kind, b, ctx).Some?
    ensures f.kind.RecordsForce() && Contribution(p, f.kind, b, ctx).Some? ==>
      r.lastForce == Contribution(p, f.kind, b, ctx).value
  {
    var c := Contribution(p, f.kind, b, ctx);
    if f.kind.RecordsForce() && c.Some? then f.(lastForce := c.value) else f
  }

  /** Every force of a list after one pass. */
  function AppliedAll(p: Platform, fs: seq<Force>, b: Bodies.BodyState, ctx: ContextState): (r: seq<Force>)
    ensures |r| == |fs|
    ensures forall i :: 0 <= i < |fs| ==> r[i] == Applied(p, fs[i], b, ctx)
  {
    seq(|fs|, i requires 0 <= i < |fs| => Applied(p, fs[i], b, ctx))
  }

  /** What a contribution adds: the vector, or nothing. */
  function AddContribution(acc: Vec3, c: Option<Vec3>): Vec3 {
    if c.Some? then Add(acc, c.value) else acc
  }

  /**
   * The accumulator after applying the forces in list order, starting from `acc`.
   * No force changes the body's state, so every force sees the same `b`.
   */
  function Accumulate(p: Platform, fs: seq<Force>, b: Bodies.BodyState, ctx: ContextState, acc: Vec3): Vec3
    decreases |fs|
  {
    if |fs| == 0 then acc
    else AddContribution(Accumulate(p, fs[..|fs| - 1], b, ctx, acc), Contribution(p, fs[|fs| - 1].kind, b, ctx))
  }

  /** A pass over two lists in a row accumulates what the pass over their concatenation does. */
  lemma {:induction false} AccumulateConcat(p: Platform, xs: seq<Force>, ys: seq<Force>, b: Bodies.BodyState, ctx: ContextState, acc: Vec3)
    ensures Accumulate(p, xs + ys, b, ctx, acc) == Accumulate(p, ys, b, ctx, Accumulate(p, xs, b, ctx, acc))
    decreases |ys|
  {
    if |ys| == 0 {
      assert xs + ys == xs;
    } else {
      var zs := xs + ys;
      assert zs[..|zs| - 1] == xs + ys[..|ys| - 1];
      assert zs[|zs| - 1] == ys[|ys| - 1];
      AccumulateConcat(p, xs, ys[..|ys| - 1], b, ctx, acc);
    }
  }

  /** Only the kinds matter: what the forces recorded earlier does not change what they add. */
  lemma {:induction false} AccumulateSameKinds(p: Platform, fs: seq<Force>, gs: seq<Force>, b: Bodies.BodyState, ctx: ContextState, acc: Vec3)
    requires |fs| == |gs|
    requires forall i :: 0 <= i < |fs| ==> fs[i].kind == gs[i].kind
    ensures Accumulate(p, fs, b, ctx, acc) == Accumulate(p, gs, b, ctx, acc)
    decreases |fs|
  {
    if |fs| > 0 {
      AccumulateSameKinds(p, fs[..|fs| - 1], gs[..|gs| - 1], b, ctx, acc);
    }
  }

  /** Forces whose guards all fail leave the accumulator as it was. */
  lemma {:induction false} AccumulateInert(p: Platform, fs: seq<Force>, b: Bodies.BodyState, ctx: ContextState, acc: Vec3)
    requires forall i :: 0 <= i < |fs| ==> Contribution(p, fs[i].kind, b, ctx).None?
    ensures Accumulate(p, fs, b, ctx, acc) == acc
    decreases |fs|
  {
    if |fs| > 0 {
      AccumulateInert(p, fs[..|fs| - 1], b, ctx, acc);
    }
  }

  /**
   * `apply` of one force: adds its contribution (if any) to the body's accumulator
   * and returns the force with its updated record. The body's state is untouched.
   */
  method ApplyForce(p: Platform, f: Force, body: Bodies.Body, ctx: ContextState) returns (r: Force)
    modifies body
    ensures r == Applied(p, f, old(body.State()), ctx)
    ensures body.State() == old(body.State())
    ensures body.forces == AddContribution(old(body.forces), Contribution(p, f.kind, old(body.State()), ctx))
  {
    var c := Contribution(p, f.kind, body.State(), ctx);
    r := f;
    if c.Some? {
      body.AddForce(c.value);
      if f.kind.RecordsForce() {
        r := f.(lastForce := c.value);
      }
    }
  }

  /**
   * A pass over `fs` in list order: each force is applied once, and the list
   * comes back with the records updated.
   */
  method ApplyAll(p: Platform, fs: seq<Force>, body: Bodies.Body, ctx: ContextState) returns (r: seq<Force>)
    modifies body
    ensures r == AppliedAll(p, fs, old(body.State()), ctx)
    ensures body.State() == old(body.State())
    ensures body.forces == Accumulate(p, fs, old(body.State()), ctx, old(body.forces))
  {
    var s := body.State();
    r := [];
    var i := 0;
    while i < |fs|
      invariant 0 <= i <= |fs|
      invariant body.State() == s
      invariant r == AppliedAll(p, fs[..i], s, ctx)
      invariant body.forces == Accumulate(p, fs[..i], s, ctx, old(body.forces))
    {
      var f := ApplyForce(p, fs[i], body, ctx);
      assert fs[..i + 1][..i] == fs[..i];
      r := r + [f];
      i := i + 1;
    }
    assert fs[..i] == fs;
  }
}
