/**
 * Mach-dependent quadratic drag (`drag::Drag`, src/dynamics/forces/drag/Drag.h):
 * the drag coefficient is looked up from an `IDragModel` at the relative Mach number.
 */
module MachDrag {
  import opened Wrappers
  import opened Platform
  import opened Vectors
  import opened Constants
  import opened Context
  import opened DragModels
  import ConstantDrag

  /** The drag model and the reference area. */
  datatype MachDrag = MachDrag(model: MachDragModel, area: real)

  /** `Drag(cd, area)`: a constant coefficient wrapped in a custom model. */
  function ConstantCdDrag(cd: real, area: real): (d: MachDrag)
    ensures d.model.CustomDragModel? && d.model.customCd == cd && d.area == area
  {
    MachDrag(CustomDragModel(cd), area)
  }

  /** `Drag()` with its default arguments: the sphere's 0.47 and 0.01 m^2. */
  const DefaultMachDrag: MachDrag := ConstantCdDrag(DEFAULT_SPHERE_CD, DEFAULT_SPHERE_AREA)

  /** `Drag(model, area)`: a standard curve loaded from the files that can be opened. */
  function CurveDrag(model: DragCurveModel, files: map<string, seq<DataLine>>, area: real): (d: MachDrag)
    ensures d.model.StandardDragModel? && d.model.model == model && d.area == area
  {
    MachDrag(NewStandardDragModel(model, files), area)
  }

  /** `setDragModel(m)` */
  function SetDragModel(d: MachDrag, model: MachDragModel): (r: MachDrag)
    ensures r.model == model && r.area == d.area
  {
    d.(model := model)
  }

  /** `setArea(a)` */
  function SetArea(d: MachDrag, area: real): (r: MachDrag)
    ensures r.area == area && r.model == d.model
  {
    d.(area := area)
  }

  /** The Mach number |v_rel| / c of the relative speed. */
  function MachNumber(p: Platform, speed: real): real {
    p.Div(speed, p.speedOfSound)
  }

  /** The force `drag::Drag::apply` adds; there is no speed guard, so it is always added. */
  function MachDragForce(p: Platform, d: MachDrag, v: Vec3, ctx: ContextState): Vec3 {
    var rel := ConstantDrag.RelativeVelocity(v, ctx);
    var speed := Length(p, rel);
    var rho := ConstantDrag.DensityOrDefault(ctx);
    var cd := d.model.GetCd(MachNumber(p, speed));
    Scale(rel, ConstantDrag.DragFactor(rho, cd, d.area, speed))
  }

  /** Air at rest relative to the body exerts no force. */
  lemma MachDragAtRest(p: Platform, d: MachDrag, v: Vec3, ctx: ContextState)
    requires ConstantDrag.RelativeVelocity(v, ctx) == Zero
    ensures MachDragForce(p, d, v, ctx) == Zero
  {
  }

  /**
   * With a constant coefficient, the Mach-dependent drag agrees with the older
   * constant-coefficient `Drag` whenever that one applies a force.
   */
  lemma ConstantCdMatchesAirDrag(p: Platform, cd: real, area: real, v: Vec3, ctx: ContextState)
    requires ConstantDrag.AirDragForce(p, ConstantDrag.AirDrag(cd, area), v, ctx).Some?
    ensures MachDragForce(p, ConstantCdDrag(cd, area), v, ctx)
         == ConstantDrag.AirDragForce(p, ConstantDrag.AirDrag(cd, area), v, ctx).value
  {
  }

  /** A constant-coefficient drag does not depend on the speed of sound. */
  lemma ConstantCdIgnoresMach(p: Platform, c: real, cd: real, area: real, v: Vec3, ctx: ContextState)
    ensures MachDragForce(p, ConstantCdDrag(cd, area), v, ctx)
         == MachDragForce(p.(speedOfSound := c), ConstantCdDrag(cd, area), v, ctx)
  {
  }
}
