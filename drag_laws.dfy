/**
 * The pluggable drag laws of src/dynamics/forces/DragForce.h and the `DragForce`
 * generator that applies one with a stored area and density.
 */
module DragLaws {
  import opened Wrappers
  import opened Platform
  import opened Vectors
  import opened Constants
  import Bodies
  import ConstantDrag

  /** `IDragModel` implementations: F = -b v, or F = -0.5 Cd A rho |v| v. */
  datatype DragLaw =
    | LinearDrag(coefficient: real)
    | QuadraticDrag(dragCoefficient: real)

  /** `LinearDrag()` with its default coefficient. */
  function DefaultLinearDrag(p: Platform): DragLaw {
    LinearDrag(p.linearDragB)
  }

  /** `QuadraticDrag()` with its default coefficient, the sphere's 0.47. */
  const DefaultQuadraticDrag: DragLaw := QuadraticDrag(DEFAULT_SPHERE_CD)

  /** `calculate(velocity, area, density)`. */
  function Calculate(p: Platform, law: DragLaw, v: Vec3, area: real, density: real): Vec3 {
    match law
    case LinearDrag(b) => Scale(v, -b)
    case QuadraticDrag(cd) =>
      var speed := p.sqrt(v.x * v.x + v.y * v.y + v.z * v.z);
      if speed < QUADRATIC_MIN_SPEED then Zero
      else
        var dragMagnitude := 0.5 * cd * area * density * speed * speed;
        Scale(v, -dragMagnitude / speed)
  }

  /** Linear drag is -b v whatever the area and density. */
  lemma LinearDragIgnoresAir(p: Platform, b: real, v: Vec3, a1: real, a2: real, rho1: real, rho2: real)
    ensures Calculate(p, LinearDrag(b), v, a1, rho1) == Calculate(p, LinearDrag(b), v, a2, rho2)
    ensures Calculate(p, LinearDrag(b), v, a1, rho1) == Vec3(-b * v.x, -b * v.y, -b * v.z)
  {
  }

  /** Below 0.001 m/s quadratic drag vanishes. */
  lemma QuadraticDragBelowThreshold(p: Platform, cd: real, v: Vec3, area: real, density: real)
    requires Length(p, v) < QUADRATIC_MIN_SPEED
    ensures Calculate(p, QuadraticDrag(cd), v, area, density) == Zero
  {
  }

  /**
   * Above the threshold, quadratic drag is exactly the constant-coefficient air drag
   * formula -0.5 rho Cd A |v| v of the older `Drag` force.
   */
  lemma QuadraticDragIsAirDrag(p: Platform, cd: real, v: Vec3, area: real, density: real)
    requires Length(p, v) >= QUADRATIC_MIN_SPEED
    ensures Calculate(p, QuadraticDrag(cd), v, area, density)
         == Scale(v, ConstantDrag.DragFactor(density, cd, area, Length(p, v)))
  {
    var speed := Length(p, v);
    assert LengthSquared(v) == v.x * v.x + v.y * v.y + v.z * v.z;
    assert speed == p.sqrt(v.x * v.x + v.y * v.y + v.z * v.z);
    var c := 0.5 * cd * area * density;
    var m := 0.5 * cd * area * density * speed * speed;
    assert m == (c * speed) * speed;
    DivideOutSpeed(c * speed, speed);
    var k := -m / speed;
    assert k == -(c * speed);
    assert ConstantDrag.DragFactor(density, cd, area, speed) == -(c * speed);
    assert Calculate(p, QuadraticDrag(cd), v, area, density) == Scale(v, k);
  }

  lemma DivideOutSpeed(a: real, s: real)
    requires s > 0.0
    ensures -(a * s) / s == -a
  {
  }

  /** For non-negative coefficient, area and density, quadratic drag points against the velocity. */
  lemma QuadraticDragOpposesMotion(p: Platform, cd: real, v: Vec3, area: real, density: real)
    requires p.Sound()
    requires cd >= 0.0 && area >= 0.0 && density >= 0.0
    ensures Dot(Calculate(p, QuadraticDrag(cd), v, area, density), v) <= 0.0
  {
    if Length(p, v) >= QUADRATIC_MIN_SPEED {
      QuadraticDragIsAirDrag(p, cd, v, area, density);
      var k := ConstantDrag.DragFactor(density, cd, area, Length(p, v));
      LengthFacts(p, v);
      ConstantDrag.FactorNonPositive(density, cd, area, Length(p, v));
      DotScale(v, k, v);
      LengthSquaredNonNegative(v);
      ConstantDrag.NonPositiveTimesNonNegative(k, Dot(v, v));
    }
  }

  /** `setDragCoefficient` / `getDragCoefficient` of a quadratic law. */
  function SetDragCoefficient(law: DragLaw, cd: real): (r: DragLaw)
    requires law.QuadraticDrag?
    ensures r.QuadraticDrag? && r.dragCoefficient == cd
  {
    law.(dragCoefficient := cd)
  }

  // ---------------------------------------------------------------------------
  // DragForce

  /** `DragForce`: an optional law (the pointer may be null), an area and a density. */
  datatype DragForceGenerator = DragForceGenerator(model: Option<DragLaw>, area: real, density: real)

  /** `DragForce(model)` with its default area (0.01 m^2) and density (sea level). */
  function NewDragForce(p: Platform, model: Option<DragLaw>): (g: DragForceGenerator)
    ensures g.model == model && g.area == DEFAULT_SPHERE_AREA && g.density == p.seaLevelDensity
  {
    DragForceGenerator(model, DEFAULT_SPHERE_AREA, p.seaLevelDensity)
  }

  /** `setCrossSectionArea(a)`: `getCrossSectionArea()` then returns `a`; nothing else changes. */
  function SetCrossSectionArea(g: DragForceGenerator, area: real): (r: DragForceGenerator)
    ensures r.area == area && r.model == g.model && r.density == g.density
  {
    g.(area := area)
  }

  /** `setAirDensity(rho)`: `getAirDensity()` then returns `rho`; nothing else changes. */
  function SetAirDensity(g: DragForceGenerator, density: real): (r: DragForceGenerator)
    ensures r.density == density && r.model == g.model && r.area == g.area
  {
    g.(density := density)
  }

  /** `setModel(m)` */
  function SetModel(g: DragForceGenerator, model: Option<DragLaw>): (r: DragForceGenerator)
    ensures r.model == model && r.area == g.area && r.density == g.density
  {
    g.(model := model)
  }

  /** The force `DragForce::apply` adds: the law's output, or nothing without a law. */
  function DragForceContribution(p: Platform, g: DragForceGenerator, v: Vec3): (f: Option<Vec3>)
    ensures g.model.None? <==> f.None?
  {
    if g.model.None? then None else Some(Calculate(p, g.model.value, v, g.area, g.density))
  }

  /** `DragForce::apply`: adds the law's output for the body velocity to the accumulator. */
  method ApplyDragForce(p: Platform, g: DragForceGenerator, body: Bodies.Body)
    modifies body
    ensures body.State() == old(body.State())
    ensures g.model.None? ==> body.forces == old(body.forces)
    ensures g.model.Some? ==> body.forces == Add(old(body.forces), Calculate(p, g.model.value, body.velocity, g.area, g.density))
  {
    if g.model.None? {
      return;
    }
    var dragForce := Calculate(p, g.model.value, body.velocity, g.area, g.density);
    body.AddForce(dragForce);
  }
}
