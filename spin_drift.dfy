/**
 * Spin drift (src/dynamics/forces/SpinDrift.h): the yaw of repose of a spinning
 * projectile and the lift and Magnus forces it produces.
 */
module SpinDrift {
  import opened Wrappers
  import opened Platform
  import opened Vectors
  import opened Constants
  import opened Context
  import opened Bodies
  import ConstantDrag

  /** `hasSpinDriftData`: diameter, area, spin specs, moment of inertia and spin rate are all known. */
  predicate HasSpinDriftData(s: ProjectileSpecs) {
    && s.diameter.Some?
    && s.area.Some?
    && s.spinSpecs.Some?
    && s.spinSpecs.value.momentOfInertia.Some?
    && s.spinSpecs.value.spinRate.Some?
  }

  /**
   * +1 for a right-hand twist, -1 for a left-hand one. The direction is read
   * without checking that rifling specifications exist; for a projectile
   * without them the platform decides what the read yields.
   */
  function RiflingSign(p: Platform, r: Option<RiflingSpecs>): (sign: real)
    ensures sign == 1.0 || sign == -1.0
    ensures r.Some? ==> (sign == 1.0 <==> r.value.direction == RIGHT)
  {
    if r.Some? then (if r.value.direction == RIGHT then 1.0 else -1.0)
    else if p.emptyRiflingRight then 1.0 else -1.0
  }

  /** The denominator rho S d |v|^4 C_M_alpha of the yaw of repose. */
  function YawDenominator(p: Platform, s: ProjectileSpecs, ctx: ContextState, v: Vec3): real
    requires HasSpinDriftData(s)
  {
    var speed := Length(p, v);
    ConstantDrag.DensityOrDefault(ctx) * s.area.value * s.diameter.value
      * (speed * speed * speed * speed) * s.spinSpecs.value.overtuningCoefficient
  }

  /** The numerator 2 Ix p (g x v) of the yaw of repose, before the twist sign. */
  function YawNumerator(s: ProjectileSpecs, v: Vec3): Vec3
    requires HasSpinDriftData(s)
  {
    var spin := s.spinSpecs.value;
    ScaleLeft(2.0 * spin.momentOfInertia.value * spin.spinRate.value, Cross(GRAVITY, v))
  }

  /** Whether the yaw of repose is computed from the formula (rather than zero). */
  predicate YawComputed(p: Platform, s: ProjectileSpecs, v: Vec3) {
    HasSpinDriftData(s) && Length(p, v) >= SPIN_MIN_SPEED
  }

  /**
   * `calculateYawOfRepose`: sign * 2 Ix p (g x v) / (rho S d |v|^4 C_M_alpha), or
   * zero without spin data or below 1e-3 m/s.
   */
  function YawOfRepose(p: Platform, s: ProjectileSpecs, ctx: ContextState, v: Vec3): (yaw: Vec3)
    ensures !YawComputed(p, s, v) ==> yaw == Zero
    ensures YawComputed(p, s, v) && YawDenominator(p, s, ctx, v) != 0.0 ==>
      Scale(yaw, YawDenominator(p, s, ctx, v)) == ScaleLeft(RiflingSign(p, s.spinSpecs.value.riflingSpecs), YawNumerator(s, v))
  {
    if !HasSpinDriftData(s) then Zero
    else if Length(p, v) < SPIN_MIN_SPEED then Zero
    else
      var sign := RiflingSign(p, s.spinSpecs.value.riflingSpecs);
      Divide(p, ScaleLeft(sign, YawNumerator(s, v)), YawDenominator(p, s, ctx, v))
  }

  /** g x v has no vertical component and is perpendicular to v. */
  lemma GravityCrossFacts(v: Vec3)
    ensures Cross(GRAVITY, v).y == 0.0
    ensures Dot(Cross(GRAVITY, v), v) == 0.0
  {
    CrossPerpendicular(GRAVITY, v);
  }

  /** Dividing by a non-zero scalar keeps a zero component and a zero dot product. */
  lemma DivideKeepsZeros(p: Platform, n: Vec3, d: real, w: Vec3)
    requires d != 0.0
    ensures n.y == 0.0 ==> Divide(p, n, d).y == 0.0
    ensures Dot(n, w) == 0.0 ==> Dot(Divide(p, n, d), w) == 0.0
  {
    var r := Divide(p, n, d);
    assert Scale(r, d) == n;
    DotScale(r, d, w);
    if n.y == 0.0 {
      assert r.y * d == 0.0;
    }
  }

  /**
   * The yaw of repose is horizontal and perpendicular to the velocity: it points
   * sideways, to the right of the trajectory for a right-hand twist.
   */
  lemma YawIsSideways(p: Platform, s: ProjectileSpecs, ctx: ContextState, v: Vec3)
    requires YawComputed(p, s, v) ==> YawDenominator(p, s, ctx, v) != 0.0
    ensures YawOfRepose(p, s, ctx, v).y == 0.0
    ensures Dot(YawOfRepose(p, s, ctx, v), v) == 0.0
  {
    if YawComputed(p, s, v) {
      var sign := RiflingSign(p, s.spinSpecs.value.riflingSpecs);
      var k := 2.0 * s.spinSpecs.value.momentOfInertia.value * s.spinSpecs.value.spinRate.value;
      var c := Cross(GRAVITY, v);
      GravityCrossFacts(v);
      var n := ScaleLeft(sign, YawNumerator(s, v));
      assert YawNumerator(s, v) == Scale(c, k);
      DotScale(c, k, v);
      DotScale(Scale(c, k), sign, v);
      assert n.y == 0.0;
      DivideKeepsZeros(p, n, YawDenominator(p, s, ctx, v), v);
    }
  }

  /** The twist direction of the projectile, with everything else unchanged. */
  function WithDirection(s: ProjectileSpecs, d: Direction): ProjectileSpecs
    requires s.spinSpecs.Some? && s.spinSpecs.value.riflingSpecs.Some?
  {
    var spin := s.spinSpecs.value;
    s.(spinSpecs := Some(spin.(riflingSpecs := Some(spin.riflingSpecs.value.(direction := d)))))
  }

  /** Changing the twist direction changes nothing the yaw formula reads but the sign. */
  lemma WithDirectionKeeps(p: Platform, s: ProjectileSpecs, ctx: ContextState, v: Vec3, d: Direction)
    requires s.spinSpecs.Some? && s.spinSpecs.value.riflingSpecs.Some?
    ensures var t := WithDirection(s, d);
      && (YawComputed(p, t, v) <==> YawComputed(p, s, v))
      && (YawComputed(p, s, v) ==>
            YawDenominator(p, t, ctx, v) == YawDenominator(p, s, ctx, v)
            && YawNumerator(t, v) == YawNumerator(s, v))
      && RiflingSign(p, t.spinSpecs.value.riflingSpecs) == (if d == RIGHT then 1.0 else -1.0)
  {
    var t := WithDirection(s, d);
    assert t.area == s.area && t.diameter == s.diameter;
    assert t.spinSpecs.value.overtuningCoefficient == s.spinSpecs.value.overtuningCoefficient;
    assert t.spinSpecs.value.momentOfInertia == s.spinSpecs.value.momentOfInertia;
    assert t.spinSpecs.value.spinRate == s.spinSpecs.value.spinRate;
  }

  /** Reversing the twist reverses the yaw of repose. */
  lemma YawFlipsWithTwist(p: Platform, s: ProjectileSpecs, ctx: ContextState, v: Vec3)
    requires s.spinSpecs.Some? && s.spinSpecs.value.riflingSpecs.Some?
    requires YawComputed(p, s, v) ==> YawDenominator(p, s, ctx, v) != 0.0
    ensures YawOfRepose(p, WithDirection(s, LEFT), ctx, v) == ScaleLeft(-1.0, YawOfRepose(p, WithDirection(s, RIGHT), ctx, v))
  {
    var l, r := WithDirection(s, LEFT), WithDirection(s, RIGHT);
    WithDirectionKeeps(p, s, ctx, v, LEFT);
    WithDirectionKeeps(p, s, ctx, v, RIGHT);
    var yl, yr := YawOfRepose(p, l, ctx, v), YawOfRepose(p, r, ctx, v);
    if YawComputed(p, s, v) {
      var d := YawDenominator(p, s, ctx, v);
      var n := YawNumerator(s, v);
      assert Scale(yl, d) == ScaleLeft(-1.0, n);
      assert Scale(yr, d) == ScaleLeft(1.0, n);
      NegatedQuotient(yl.x, yr.x, n.x, d);
      NegatedQuotient(yl.y, yr.y, n.y, d);
      NegatedQuotient(yl.z, yr.z, n.z, d);
    }
  }

  lemma NegatedQuotient(a: real, b: real, n: real, d: real)
    requires d != 0.0 && a * d == n * -1.0 && b * d == n * 1.0
    ensures a == b * -1.0
  {
    assert (a + b) * d == 0.0;
  }

  // ---------------------------------------------------------------------------
  // Lift and Magnus

  /** Whether `Lift::apply` and `Magnus::apply` act: a projectile with spin data moving at 1e-3 m/s or more. */
  predicate SpinForcesAct(p: Platform, b: BodyState) {
    b.specs.Some? && YawComputed(p, b.specs.value, b.velocity)
  }

  /** The force `Lift::apply` adds: 0.5 rho S C_L_alpha |v|^2 times the yaw of repose. */
  function LiftForce(p: Platform, b: BodyState, ctx: ContextState): (f: Option<Vec3>)
    ensures f.None? <==> !SpinForcesAct(p, b)
  {
    if !SpinForcesAct(p, b) then None
    else
      var s := b.specs.value;
      var speed := Length(p, b.velocity);
      var rho := ConstantDrag.DensityOrDefault(ctx);
      var yaw := YawOfRepose(p, s, ctx, b.velocity);
      Some(ScaleLeft(0.5 * rho * s.area.value * s.spinSpecs.value.liftCoefficient * (speed * speed), yaw))
  }

  /** The force `Magnus::apply` adds: -0.5 rho S d p C_mag_f (yaw x v). */
  function MagnusForce(p: Platform, b: BodyState, ctx: ContextState): (f: Option<Vec3>)
    ensures f.None? <==> !SpinForcesAct(p, b)
  {
    if !SpinForcesAct(p, b) then None
    else
      var s := b.specs.value;
      var rho := ConstantDrag.DensityOrDefault(ctx);
      var yaw := YawOfRepose(p, s, ctx, b.velocity);
      var k := -0.5 * rho * s.area.value * s.diameter.value * s.spinSpecs.value.spinRate.value
               * s.spinSpecs.value.magnusCoefficient;
      Some(ScaleLeft(k, Cross(yaw, b.velocity)))
  }

  /** Lift acts along the yaw of repose: horizontal and perpendicular to the velocity. */
  lemma LiftIsSideways(p: Platform, b: BodyState, ctx: ContextState)
    requires SpinForcesAct(p, b)
    requires YawDenominator(p, b.specs.value, ctx, b.velocity) != 0.0
    ensures LiftForce(p, b, ctx).value.y == 0.0
    ensures Dot(LiftForce(p, b, ctx).value, b.velocity) == 0.0
  {
    var yaw := YawOfRepose(p, b.specs.value, ctx, b.velocity);
    YawIsSideways(p, b.specs.value, ctx, b.velocity);
    var f := LiftForce(p, b, ctx).value;
    var k :| f == Scale(yaw, k);
    DotScale(yaw, k, b.velocity);
  }

  /** The Magnus force is perpendicular to the velocity (it is a multiple of yaw x v). */
  lemma MagnusIsPerpendicular(p: Platform, b: BodyState, ctx: ContextState)
    requires SpinForcesAct(p, b)
    ensures Dot(MagnusForce(p, b, ctx).value, b.velocity) == 0.0
  {
    var yaw := YawOfRepose(p, b.specs.value, ctx, b.velocity);
    var c := Cross(yaw, b.velocity);
    CrossPerpendicular(yaw, b.velocity);
    var f := MagnusForce(p, b, ctx).value;
    var k :| f == Scale(c, k);
    DotScale(c, k, b.velocity);
  }

  /** Without spin the numerator 2 Ix p (g x v) vanishes. */
  lemma NoSpinNoNumerator(s: ProjectileSpecs, v: Vec3)
    requires HasSpinDriftData(s) && s.spinSpecs.value.spinRate == Some(0.0)
    ensures YawNumerator(s, v) == Zero
  {
    assert 2.0 * s.spinSpecs.value.momentOfInertia.value * 0.0 == 0.0;
  }

  /** A projectile that does not spin has no yaw of repose. */
  lemma NoSpinNoYaw(p: Platform, s: ProjectileSpecs, ctx: ContextState, v: Vec3)
    requires YawComputed(p, s, v) && s.spinSpecs.value.spinRate == Some(0.0)
    requires YawDenominator(p, s, ctx, v) != 0.0
    ensures YawOfRepose(p, s, ctx, v) == Zero
  {
    var d := YawDenominator(p, s, ctx, v);
    NoSpinNoNumerator(s, v);
    var yaw := YawOfRepose(p, s, ctx, v);
    ScaleZero(RiflingSign(p, s.spinSpecs.value.riflingSpecs));
    ZeroQuotient(yaw, d);
  }

  lemma ScaleZero(k: real)
    ensures ScaleLeft(k, Zero) == Zero
  {
  }

  lemma ZeroQuotient(y: Vec3, d: real)
    requires d != 0.0 && Scale(y, d) == Zero
    ensures y == Zero
  {
  }

  /** Without spin there is no lift and no Magnus force. */
  lemma NoSpinNoSpinForces(p: Platform, b: BodyState, ctx: ContextState)
    requires SpinForcesAct(p, b) && b.specs.value.spinSpecs.value.spinRate == Some(0.0)
    requires YawDenominator(p, b.specs.value, ctx, b.velocity) != 0.0
    ensures LiftForce(p, b, ctx) == Some(Zero)
    ensures MagnusForce(p, b, ctx) == Some(Zero)
  {
    NoSpinNoYaw(p, b.specs.value, ctx, b.velocity);
    CrossZeroLeft(b.velocity);
  }

  lemma CrossZeroLeft(v: Vec3)
    ensures Cross(Zero, v) == Zero
  {
  }
}
