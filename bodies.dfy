/**
 * Rigid bodies and projectile specifications (src/dynamics/PhysicsBody.h and
 * src/dynamics/RigidBody.cpp).
 */
module Bodies {
  import opened Wrappers
  import opened Platform
  import opened Vectors
  import opened Constants
  import DragModels

  /** `RiflingSpecs::Direction`: RIGHT is clockwise, LEFT counter-clockwise. */
  datatype Direction = RIGHT | LEFT

  /** Barrel rifling: its direction and its twist rate in calibers per turn. */
  datatype RiflingSpecs = RiflingSpecs(direction: Direction, twistRate: real)

  /** Spin-related specifications. */
  datatype SpinSpecs = SpinSpecs(
    momentOfInertia: Option<real>,
    overtuningCoefficient: real,
    liftCoefficient: real,
    magnusCoefficient: real,
    riflingSpecs: Option<RiflingSpecs>,
    spinRate: Option<real>)

  /** A `SpinSpecs{}`: the default coefficients and nothing else known. */
  function DefaultSpinSpecs(p: Platform): (s: SpinSpecs)
    ensures s.overtuningCoefficient == p.defaultCMAlpha
    ensures s.liftCoefficient == p.defaultCLAlpha
    ensures s.magnusCoefficient == p.defaultCMagF
    ensures s.momentOfInertia.None? && s.riflingSpecs.None? && s.spinRate.None?
  {
    SpinSpecs(None, p.defaultCMAlpha, p.defaultCLAlpha, p.defaultCMagF, None, None)
  }

  /** Projectile specifications: mass, optional dimensions, drag curve and spin data. */
  datatype ProjectileSpecs = ProjectileSpecs(
    mass: real,
    area: Option<real>,
    diameter: Option<real>,
    dragModel: Option<DragModels.DragCurveModel>,
    spinSpecs: Option<SpinSpecs>)

  /** `ProjectileSpecs{mass}`: only the mass given. */
  function MassOnlySpecs(mass: real): (s: ProjectileSpecs)
    ensures s.mass == mass
    ensures s.area.None? && s.diameter.None? && s.dragModel.None? && s.spinSpecs.None?
  {
    ProjectileSpecs(mass, None, None, None, None)
  }

  /** `setMass`: a non-positive mass is replaced by 1. */
  function CoercedMass(mass: real): (m: real)
    ensures m > 0.0
    ensures mass > 0.0 ==> m == mass
    ensures mass <= 0.0 ==> m == 1.0
  {
    if mass > 0.0 then mass else 1.0
  }

  /** `calculateArea`: the cross-section of a circle of diameter d, PI d^2 / 4. */
  function CrossSectionArea(diameter: real): (a: real)
    ensures a >= 0.0
  {
    SquareNonNegative(diameter);
    MulNonNegative(PI * 0.25, diameter * diameter);
    PI * 0.25 * (diameter * diameter)
  }

  /** `calculateMomentOfInertiaX`: the uniform-cylinder value m d^2 / 8. */
  function MomentOfInertiaX(mass: real, diameter: real): (ix: real)
    ensures mass >= 0.0 ==> ix >= 0.0
  {
    SquareNonNegative(diameter);
    MulNonNegative(0.125 * mass, diameter * diameter);
    0.125 * mass * (diameter * diameter)
  }

  lemma MulNonNegative(a: real, b: real)
    ensures a >= 0.0 && b >= 0.0 ==> a * b >= 0.0
  {
  }

  /** `calculateSpinRate`: p = 2 PI V / (n d), one turn per `twistRate` calibers of travel. */
  function SpinRate(p: Platform, velocity: real, twistRate: real, diameter: real): (rate: real)
    ensures twistRate * diameter != 0.0 ==> rate * (twistRate * diameter) == 2.0 * PI * velocity
  {
    p.Div(2.0 * PI * velocity, twistRate * diameter)
  }

  /**
   * The specs a `ProjectileRigidBody` stores after construction: a missing area
   * is derived from the diameter, and a missing moment of inertia is derived from
   * the specified mass and the diameter. The moment of inertia lives in the spin
   * specs, so it is derived only when spin specs are present.
   */
  function DeriveSpecs(s: ProjectileSpecs): (r: ProjectileSpecs)
    ensures r.mass == s.mass && r.diameter == s.diameter && r.dragModel == s.dragModel
    ensures s.area.Some? ==> r.area == s.area
    ensures s.area.None? && s.diameter.Some? ==> r.area == Some(CrossSectionArea(s.diameter.value))
    ensures s.area.None? && s.diameter.None? ==> r.area.None?
    ensures s.spinSpecs.None? <==> r.spinSpecs.None?
    ensures s.spinSpecs.Some? ==> r.spinSpecs.value == s.spinSpecs.value.(momentOfInertia := r.spinSpecs.value.momentOfInertia)
    ensures s.spinSpecs.Some? && s.spinSpecs.value.momentOfInertia.Some? ==> r.spinSpecs == s.spinSpecs
    ensures s.spinSpecs.Some? && s.spinSpecs.value.momentOfInertia.None? && s.diameter.Some? ==>
      r.spinSpecs.value.momentOfInertia == Some(MomentOfInertiaX(s.mass, s.diameter.value))
    ensures s.diameter.None? ==> r.spinSpecs == s.spinSpecs
  {
    var area := if s.area.None? && s.diameter.Some? then Some(CrossSectionArea(s.diameter.value)) else s.area;
    var spin :=
      if s.spinSpecs.Some? && s.spinSpecs.value.momentOfInertia.None? && s.diameter.Some?
      then Some(s.spinSpecs.value.(momentOfInertia := Some(MomentOfInertiaX(s.mass, s.diameter.value))))
      else s.spinSpecs;
    s.(area := area, spinSpecs := spin)
  }

  /** Deriving twice changes nothing more: everything derivable is already there. */
  lemma DeriveSpecsIdempotent(s: ProjectileSpecs)
    ensures DeriveSpecs(DeriveSpecs(s)) == DeriveSpecs(s)
  {
  }

  /** Whether `setInitialSpinRate(v)` fills in the spin rate. */
  predicate SpinRateSettable(s: ProjectileSpecs, velocity: real) {
    && s.spinSpecs.Some?
    && s.spinSpecs.value.spinRate.None?
    && s.spinSpecs.value.riflingSpecs.Some?
    && s.diameter.Some?
    && velocity > SPIN_MIN_SPEED
  }

  /**
   * `setInitialSpinRate(v)`: when the spin rate is unknown, the barrel is rifled,
   * the diameter is known and the body moves, the spin rate becomes
   * 2 PI v / (twist d); otherwise the specs are unchanged.
   */
  function WithInitialSpinRate(p: Platform, s: ProjectileSpecs, velocity: real): (r: ProjectileSpecs)
    ensures !SpinRateSettable(s, velocity) ==> r == s
    ensures SpinRateSettable(s, velocity) ==>
      r == s.(spinSpecs := Some(s.spinSpecs.value.(spinRate := Some(SpinRate(p, velocity,
                  s.spinSpecs.value.riflingSpecs.value.twistRate, s.diameter.value)))))
  {
    if SpinRateSettable(s, velocity) then
      var spin := s.spinSpecs.value;
      s.(spinSpecs := Some(spin.(spinRate := Some(SpinRate(p, velocity, spin.riflingSpecs.value.twistRate, s.diameter.value)))))
    else s
  }

  /** Once a spin rate is known, no later velocity changes it. */
  lemma SpinRateSetOnce(p: Platform, s: ProjectileSpecs, v1: real, v2: real)
    ensures var s1 := WithInitialSpinRate(p, s, v1);
      s1.spinSpecs.Some? && s1.spinSpecs.value.spinRate.Some? ==> WithInitialSpinRate(p, s1, v2) == s1
  {
  }

  /** `deg2rad` of src/math/Angles.h. */
  function DegToRad(deg: real): real {
    deg * (PI / 180.0)
  }

  /** The velocity `setVelocityFromAngles` builds: (cos e sin a, sin e, cos e cos a) * speed. */
  function VelocityFromAngles(p: Platform, speed: real, elevationDeg: real, azimuthDeg: real): (v: Vec3)
    ensures elevationDeg == 0.0 && azimuthDeg == 0.0 && p.sin(0.0) == 0.0 && p.cos(0.0) == 1.0 ==>
      v == Vec3(0.0, 0.0, speed)
  {
    var elev := DegToRad(elevationDeg);
    var azim := DegToRad(azimuthDeg);
    var ce, se := p.cos(elev), p.sin(elev);
    var sa, ca := p.sin(azim), p.cos(azim);
    Vec3(ce * sa * speed, se * speed, ce * ca * speed)
  }

  /** Whatever the angles, the launch velocity has the requested speed. */
  lemma LaunchSpeed(p: Platform, speed: real, elevationDeg: real, azimuthDeg: real)
    requires p.Trigonometric()
    ensures LengthSquared(VelocityFromAngles(p, speed, elevationDeg, azimuthDeg)) == speed * speed
  {
    var elev, azim := DegToRad(elevationDeg), DegToRad(azimuthDeg);
    var ce, se := p.cos(elev), p.sin(elev);
    var sa, ca := p.sin(azim), p.cos(azim);
    var v := VelocityFromAngles(p, speed, elevationDeg, azimuthDeg);
    assert sa * sa + ca * ca == 1.0;
    assert se * se + ce * ce == 1.0;
    var k := ce * speed;
    assert v == Vec3(k * sa, se * speed, k * ca);
    assert LengthSquared(v) == k * k * (sa * sa + ca * ca) + (se * speed) * (se * speed);
    assert k * k == ce * ce * (speed * speed);
    assert (se * speed) * (se * speed) == se * se * (speed * speed);
    assert LengthSquared(v) == (ce * ce + se * se) * (speed * speed);
  }

  /** The state of a body that integrators save and compare (everything but the accumulator). */
  datatype BodyState = BodyState(
    mass: real,
    position: Vec3,
    velocity: Vec3,
    grounded: bool,
    specs: Option<ProjectileSpecs>)

  /**
   * `RigidBody` and `ProjectileRigidBody`. A body is a projectile when it holds
   * projectile specs. `grounded` stands for the `isGrounded()` query that
   * WindDragForce uses; nothing in the modelled code sets it.
   */
  class Body {
    var mass: real
    var position: Vec3
    var velocity: Vec3
    var forces: Vec3
    var grounded: bool
    var specs: Option<ProjectileSpecs>

    /**
     * Mass is always positive: every path that sets it goes through `setMass`.
     * Every constructor establishes it and every method keeps it; it records that
     * promise of the source. The integrators keep their `mass <= 0` branch anyway,
     * as the source does.
     */
    ghost predicate Valid()
      reads this
    {
      mass > 0.0
    }

    function State(): BodyState
      reads this
    {
      BodyState(mass, position, velocity, grounded, specs)
    }

    /** `RigidBody()`: mass 1, at rest at the origin, no accumulated force. */
    constructor ()
      ensures Valid()
      ensures mass == 1.0 && position == Zero && velocity == Zero && forces == Zero
      ensures !grounded && specs.None?
    {
      mass := 1.0;
      position := Zero;
      velocity := Zero;
      forces := Zero;
      grounded := false;
      specs := None;
    }

    /** `ProjectileRigidBody()`: a plain body whose specs hold only a mass of 1. */
    constructor DefaultProjectile()
      ensures Valid()
      ensures mass == 1.0 && position == Zero && velocity == Zero && forces == Zero
      ensures !grounded && specs == Some(MassOnlySpecs(1.0))
    {
      mass := 1.0;
      position := Zero;
      velocity := Zero;
      forces := Zero;
      grounded := false;
      specs := Some(MassOnlySpecs(1.0));
    }

    /** `ProjectileRigidBody(specs)`: mass through `setMass`, then the derived specs. */
    constructor Projectile(s: ProjectileSpecs)
      ensures Valid()
      ensures mass == CoercedMass(s.mass)
      ensures position == Zero && velocity == Zero && forces == Zero && !grounded
      ensures specs == Some(DeriveSpecs(s))
    {
      mass := CoercedMass(s.mass);
      position := Zero;
      velocity := Zero;
      forces := Zero;
      grounded := false;
      specs := Some(DeriveSpecs(s));
    }

    /** `getProjectileSpecs()` of a projectile. */
    function ProjectileSpecsOf(): (s: ProjectileSpecs)
      reads this
      requires specs.Some?
      ensures Some(s) == specs
    {
      specs.value
    }

    /** `setMass(m)`: `m` when positive, 1 otherwise; nothing else changes. */
    method SetMass(m: real)
      modifies this
      ensures Valid()
      ensures mass == CoercedMass(m)
      ensures position == old(position) && velocity == old(velocity) && forces == old(forces)
      ensures grounded == old(grounded) && specs == old(specs)
    {
      mass := if m > 0.0 then m else 1.0;
    }

    /** `setPosition(pos)` */
    method SetPosition(pos: Vec3)
      modifies this
      ensures position == pos
      ensures mass == old(mass) && velocity == old(velocity) && forces == old(forces)
      ensures grounded == old(grounded) && specs == old(specs)
    {
      position := pos;
    }

    /**
     * `setVelocity(v)`; on a projectile it then tries to initialise the spin rate
     * from the new speed |v|.
     */
    method SetVelocity(p: Platform, v: Vec3)
      modifies this
      ensures velocity == v
      ensures mass == old(mass) && position == old(position) && forces == old(forces) && grounded == old(grounded)
      ensures old(specs).None? ==> specs.None?
      ensures old(specs).Some? ==> specs == Some(WithInitialSpinRate(p, old(specs).value, Length(p, v)))
    {
      velocity := v;
      if specs.Some? {
        specs := Some(WithInitialSpinRate(p, specs.value, Length(p, v)));
      }
    }

    /**
     * `setVelocityFromAngles(speed, elevation, azimuth)`; on a projectile it then
     * tries to initialise the spin rate from `speed`.
     */
    method SetVelocityFromAngles(p: Platform, speed: real, elevationDeg: real, azimuthDeg: real)
      modifies this
      ensures velocity == VelocityFromAngles(p, speed, elevationDeg, azimuthDeg)
      ensures mass == old(mass) && position == old(position) && forces == old(forces) && grounded == old(grounded)
      ensures old(specs).None? ==> specs.None?
      ensures old(specs).Some? ==> specs == Some(WithInitialSpinRate(p, old(specs).value, speed))
    {
      velocity := VelocityFromAngles(p, speed, elevationDeg, azimuthDeg);
      if specs.Some? {
        specs := Some(WithInitialSpinRate(p, specs.value, speed));
      }
    }

    /** `setState(pos, vel)`: position and velocity only; the spin rate is not touched. */
    method SetState(pos: Vec3, vel: Vec3)
      modifies this
      ensures position == pos && velocity == vel
      ensures mass == old(mass) && forces == old(forces) && grounded == old(grounded) && specs == old(specs)
    {
      position := pos;
      velocity := vel;
    }

    /** `addForce(f)`: the accumulator grows by `f`. */
    method AddForce(f: Vec3)
      modifies this
      ensures forces == Add(old(forces), f)
      ensures State() == old(State())
    {
      forces := Add(forces, f);
    }

    /** `clearForces()`: the accumulator becomes zero. */
    method ClearForces()
      modifies this
      ensures forces == Zero
      ensures State() == old(State())
    {
      forces := Zero;
    }

    /** `clone()`: a new, independent body equal to this one. */
    method Clone() returns (c: Body)
      ensures fresh(c)
      ensures c.State() == State() && c.forces == forces
    {
      c := new Body();
      c.mass := mass;
      c.position := position;
      c.velocity := velocity;
      c.forces := forces;
      c.grounded := grounded;
      c.specs := specs;
    }

    /**
     * `RigidBody tempRb = rb`: a copy through the base class. It is a new, plain
     * rigid body: a projectile's specs are not copied.
     */
    method CopyAsRigidBody() returns (c: Body)
      ensures fresh(c)
      ensures c.State() == State().(specs := None) && c.forces == forces
    {
      c := new Body();
      c.mass := mass;
      c.position := position;
      c.velocity := velocity;
      c.forces := forces;
      c.grounded := grounded;
    }
  }
}
