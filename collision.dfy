/**
 * Collision tests of src/collision/: an axis-aligned box-box overlap test that
 * reports the axis of least penetration, a box-versus-ground test over the
 * box's eight corners, and the all-pairs pass of `CollisionDetection`.
 */
module Collision {
  import opened Wrappers
  import opened Vectors
  import opened Algorithms

  /** `CollisionInfo`: how deep the overlap is and along which unit normal. */
  datatype CollisionInfo = CollisionInfo(penetration: real, normal: Vec3)

  datatype Axis = X | Y | Z

  /** The unit normal along an axis, positive when `positive` holds. */
  function AxisNormal(axis: Axis, positive: bool): Vec3 {
    var s := if positive then 1.0 else -1.0;
    match axis
    case X => Vec3(s, 0.0, 0.0)
    case Y => Vec3(0.0, s, 0.0)
    case Z => Vec3(0.0, 0.0, s)
  }

  // ---------------------------------------------------------------------------
  // Box against box

  /** How far two boxes overlap along each axis: the half-size sum minus the centre distance. */
  function Overlap(p1: Vec3, s1: Vec3, p2: Vec3, s2: Vec3): (o: Vec3) {
    var h1, h2 := Scale(s1, 0.5), Scale(s2, 0.5);
    var d := Sub(p2, p1);
    Vec3(h1.x + h2.x - Abs(d.x), h1.y + h2.y - Abs(d.y), h1.z + h2.z - Abs(d.z))
  }

  /**
   * The box-box contact `testCollisionWithBox` reports: none when the boxes are
   * apart along some axis (a strictly negative overlap), otherwise the axis of
   * least overlap, preferring x over y over z on ties, with the normal pointing
   * along the centre difference on that axis.
   */
  function BoxBoxContact(p1: Vec3, s1: Vec3, p2: Vec3, s2: Vec3): Option<CollisionInfo> {
    var o := Overlap(p1, s1, p2, s2);
    var d := Sub(p2, p1);
    if o.x < 0.0 || o.y < 0.0 || o.z < 0.0 then None
    else
      var afterX := CollisionInfo(o.x, AxisNormal(X, d.x > 0.0));
      var afterY := if o.y < afterX.penetration then CollisionInfo(o.y, AxisNormal(Y, d.y > 0.0)) else afterX;
      var afterZ := if o.z < afterY.penetration then CollisionInfo(o.z, AxisNormal(Z, d.z > 0.0)) else afterY;
      Some(afterZ)
  }

  /**
   * The box-box contact is the least overlap: absent exactly when some axis
   * separates the boxes, otherwise the smallest of the three overlaps (so never
   * negative), along the first axis that attains it, pointing from the first box
   * towards the second.
   */
  lemma BoxBoxContactIsLeastOverlap(p1: Vec3, s1: Vec3, p2: Vec3, s2: Vec3)
    ensures var o := Overlap(p1, s1, p2, s2);
      BoxBoxContact(p1, s1, p2, s2).None? <==> (o.x < 0.0 || o.y < 0.0 || o.z < 0.0)
    ensures var o := Overlap(p1, s1, p2, s2); var r := BoxBoxContact(p1, s1, p2, s2);
      r.Some? ==> && 0.0 <= r.value.penetration
                  && r.value.penetration <= o.x && r.value.penetration <= o.y && r.value.penetration <= o.z
                  && (r.value.penetration == o.x || r.value.penetration == o.y || r.value.penetration == o.z)
    ensures var o := Overlap(p1, s1, p2, s2); var d := Sub(p2, p1); var r := BoxBoxContact(p1, s1, p2, s2);
      r.Some? ==>
        && (o.x <= o.y && o.x <= o.z ==> r.value.normal == AxisNormal(X, d.x > 0.0))
        && (o.y < o.x && o.y <= o.z ==> r.value.normal == AxisNormal(Y, d.y > 0.0))
        && (o.z < o.x && o.z < o.y ==> r.value.normal == AxisNormal(Z, d.z > 0.0))
  {
  }

  /** Whether two boxes touch does not depend on which one asks, and neither does the depth. */
  lemma BoxBoxSymmetric(p1: Vec3, s1: Vec3, p2: Vec3, s2: Vec3)
    ensures BoxBoxContact(p1, s1, p2, s2).Some? <==> BoxBoxContact(p2, s2, p1, s1).Some?
    ensures BoxBoxContact(p1, s1, p2, s2).Some? ==>
      BoxBoxContact(p1, s1, p2, s2).value.penetration == BoxBoxContact(p2, s2, p1, s1).value.penetration
  {
    var d, e := Sub(p2, p1), Sub(p1, p2);
    assert Abs(d.x) == Abs(e.x) && Abs(d.y) == Abs(e.y) && Abs(d.z) == Abs(e.z);
    assert Overlap(p1, s1, p2, s2) == Overlap(p2, s2, p1, s1);
    BoxBoxContactIsLeastOverlap(p1, s1, p2, s2);
    BoxBoxContactIsLeastOverlap(p2, s2, p1, s1);
  }

  /** `testPoint` of a box: inside or on the boundary along every axis. */
  function BoxContainsPoint(position: Vec3, size: Vec3, point: Vec3): bool {
    var half := Scale(size, 0.5);
    var d := Sub(point, position);
    Abs(d.x) <= half.x && Abs(d.y) <= half.y && Abs(d.z) <= half.z
  }

  /** A box of non-negative size contains its own centre. */
  lemma BoxContainsCentre(position: Vec3, size: Vec3)
    requires size.x >= 0.0 && size.y >= 0.0 && size.z >= 0.0
    ensures BoxContainsPoint(position, size, position)
  {
    assert Sub(position, position) == Zero;
  }

  // ---------------------------------------------------------------------------
  // Box against ground

  /** `(i & bit) ? h : -h`, with the bit test already done. */
  function Signed(bitSet: bool, h: real): real {
    if bitSet then h else -h
  }

  /** `vertex = center + sx*axisX + sy*axisY + sz*axisZ`, height only. */
  function VertexY(centreY: real, sx: real, sy: real, sz: real, axes: seq<Vec3>): real
    requires |axes| == 3
  {
    centreY + sx * axes[0].y + sy * axes[1].y + sz * axes[2].y
  }

  /** The height of corner `i` (0..7) of a box with orientation axes `axes`. */
  function CornerY(position: Vec3, size: Vec3, axes: seq<Vec3>, i: nat): real
    requires |axes| == 3
  {
    var half := Scale(size, 0.5);
    VertexY(position.y, Signed(i % 2 == 1, half.x), Signed((i / 2) % 2 == 1, half.y), Signed((i / 4) % 2 == 1, half.z), axes)
  }

  /** The lowest of the centre and the first `n` corners. */
  function LowestOf(position: Vec3, size: Vec3, axes: seq<Vec3>, n: nat): real
    requires |axes| == 3
  {
    if n == 0 then position.y
    else
      var m := LowestOf(position, size, axes, n - 1);
      var c := CornerY(position, size, axes, n - 1);
      if c < m then c else m
  }

  /** `LowestOf` is the minimum: no higher than the centre or any of the corners, and one of them. */
  lemma {:induction false} LowestIsMinimum(position: Vec3, size: Vec3, axes: seq<Vec3>, n: nat)
    requires |axes| == 3
    ensures LowestOf(position, size, axes, n) <= position.y
    ensures forall i :: 0 <= i < n ==> LowestOf(position, size, axes, n) <= CornerY(position, size, axes, i)
    ensures || LowestOf(position, size, axes, n) == position.y
            || exists i :: 0 <= i < n && LowestOf(position, size, axes, n) == CornerY(position, size, axes, i)
  {
    if n > 0 {
      LowestIsMinimum(position, size, axes, n - 1);
    }
  }

  /** One more corner: the running minimum drops to the corner only when the corner is strictly lower. */
  lemma LowestStep(position: Vec3, size: Vec3, axes: seq<Vec3>, i: nat, lowest: real, vertexY: real)
    requires |axes| == 3
    requires lowest == LowestOf(position, size, axes, i) && vertexY == CornerY(position, size, axes, i)
    ensures LowestOf(position, size, axes, i + 1) == if vertexY < lowest then vertexY else lowest
  {
  }

  /** The lowest point of the box: the minimum over the centre and all eight corners. */
  function LowestY(position: Vec3, size: Vec3, axes: seq<Vec3>): real
    requires |axes| == 3
  {
    LowestOf(position, size, axes, 8)
  }

  /**
   * The box-ground contact `testCollisionWithGround` reports: a hit when the lowest
   * point is strictly below the ground, with an upward normal and the depth below it.
   */
  function BoxGroundContact(position: Vec3, size: Vec3, axes: seq<Vec3>, groundY: real): Option<CollisionInfo>
    requires |axes| == 3
  {
    var lowest := LowestY(position, size, axes);
    if lowest < groundY then Some(CollisionInfo(groundY - lowest, Vec3(0.0, 1.0, 0.0))) else None
  }

  /**
   * The ground test hits exactly when the lowest point is strictly below the
   * ground, and then reports an upward normal and a positive depth that lifts the
   * lowest point back to the ground.
   */
  lemma GroundContactBelowLowest(position: Vec3, size: Vec3, axes: seq<Vec3>, groundY: real)
    requires |axes| == 3
    ensures BoxGroundContact(position, size, axes, groundY).Some? <==> LowestY(position, size, axes) < groundY
    ensures var r := BoxGroundContact(position, size, axes, groundY);
      r.Some? ==> && r.value.normal == Vec3(0.0, 1.0, 0.0) && r.value.penetration > 0.0
                  && LowestY(position, size, axes) + r.value.penetration == groundY
  {
  }

  /** With the default axes, the lowest point of a box of non-negative size is its bottom face. */
  lemma AxisAlignedLowest(position: Vec3, size: Vec3)
    requires size.x >= 0.0 && size.y >= 0.0 && size.z >= 0.0
    ensures LowestY(position, size, [Vec3(1.0, 0.0, 0.0), Vec3(0.0, 1.0, 0.0), Vec3(0.0, 0.0, 1.0)])
         == position.y - size.y * 0.5
  {
    var axes := [Vec3(1.0, 0.0, 0.0), Vec3(0.0, 1.0, 0.0), Vec3(0.0, 0.0, 1.0)];
    var bottom := position.y - size.y * 0.5;
    forall i | 0 <= i < 8
      ensures bottom <= CornerY(position, size, axes, i)
    {
    }
    assert CornerY(position, size, axes, 0) == bottom;
    LowestIsMinimum(position, size, axes, 8);
  }

  // ---------------------------------------------------------------------------
  // The colliders

  /** `BoxCollider`: a centre, a size, and an orientation held in a three-slot buffer. */
  class BoxCollider {
    var position: Vec3
    var size: Vec3
    const axes: array<Vec3>

    /** The axes buffer always has its three slots. */
    predicate Valid() {
      axes.Length == 3
    }

    /** `BoxCollider(size)`: at the origin, with the identity orientation. */
    constructor (size: Vec3)
      ensures Valid() && fresh(axes)
      ensures position == Zero && this.size == size
      ensures axes[..] == [Vec3(1.0, 0.0, 0.0), Vec3(0.0, 1.0, 0.0), Vec3(0.0, 0.0, 1.0)]
    {
      position := Zero;
      this.size := size;
      axes := new Vec3[3] [Vec3(1.0, 0.0, 0.0), Vec3(0.0, 1.0, 0.0), Vec3(0.0, 0.0, 1.0)];
    }

    /** `setPosition(pos)` */
    method SetPosition(pos: Vec3)
      modifies this
      ensures position == pos && size == old(size)
    {
      position := pos;
    }

    /** `setSize(s)` */
    method SetSize(s: Vec3)
      modifies this
      ensures size == s && position == old(position)
    {
      size := s;
    }

    /** `setAxes(x, y, z)`: the three slots of the orientation buffer. */
    method SetAxes(axisX: Vec3, axisY: Vec3, axisZ: Vec3)
      requires Valid()
      modifies axes
      ensures axes[..] == [axisX, axisY, axisZ]
    {
      axes[0] := axisX;
      axes[1] := axisY;
      axes[2] := axisZ;
    }

    /** `testPoint(p)` */
    function TestPoint(point: Vec3): (r: bool)
      reads this
      ensures r <==> BoxContainsPoint(position, size, point)
    {
      BoxContainsPoint(position, size, point)
    }

    /**
     * The loop of `testCollisionWithGround`: the lowest of the centre and the
     * eight corners, one corner at a time.
     */
    method LowestVertexY() returns (lowest: real)
      requires Valid()
      ensures lowest == LowestY(position, size, axes[..])
    {
      var half := Scale(size, 0.5);
      lowest := position.y;
      var i := 0;
      while i < 8
        invariant 0 <= i <= 8
        invariant lowest == LowestOf(position, size, axes[..], i)
      {
        var sx := Signed(i % 2 == 1, half.x);
        var sy := Signed((i / 2) % 2 == 1, half.y);
        var sz := Signed((i / 4) % 2 == 1, half.z);
        var vertexY := VertexY(position.y, sx, sy, sz, axes[..]);
        LowestStep(position, size, axes[..], i, lowest, vertexY);
        if vertexY < lowest {
          lowest := vertexY;
        }
        i := i + 1;
      }
    }

    /** `testCollisionWithGround(ground, info)` */
    method TestCollisionWithGround(ground: GroundCollider) returns (r: Option<CollisionInfo>)
      requires Valid()
      ensures r == BoxGroundContact(position, size, axes[..], ground.position.y)
    {
      var groundY := ground.GroundY();
      var lowestY := LowestVertexY();
      if lowestY < groundY {
        return Some(CollisionInfo(groundY - lowestY, Vec3(0.0, 1.0, 0.0)));
      }
      return None;
    }
  }

  /** `GroundCollider`: an infinite horizontal plane; only the height of its position matters. */
  class GroundCollider {
    var position: Vec3

    /** `GroundCollider(level)`: the plane through (0, level, 0). */
    constructor (level: real)
      ensures position == Vec3(0.0, level, 0.0)
    {
      position := Vec3(0.0, level, 0.0);
    }

    function GroundY(): real
      reads this
    {
      position.y
    }

    /** `setPosition(pos)`: only the height is taken. */
    method SetPosition(pos: Vec3)
      modifies this
      ensures position == old(position).(y := pos.y)
      ensures GroundY() == pos.y
    {
      position := position.(y := pos.y);
    }

    /** `setGroundY(level)` */
    method SetGroundY(level: real)
      modifies this
      ensures position == old(position).(y := level)
      ensures GroundY() == level
    {
      position := position.(y := level);
    }

    /** `testPoint(p)`: on or below the plane. */
    function TestPoint(point: Vec3): (r: bool)
      reads this
      ensures r <==> point.y <= GroundY()
    {
      point.y <= position.y
    }
  }

  /** What a collider test looks at: a box's placement and orientation, or a ground plane's height. */
  datatype Shape = BoxShape(position: Vec3, size: Vec3, axes: seq<Vec3>) | GroundShape(groundY: real)
  {
    predicate Valid() {
      BoxShape? ==> |axes| == 3
    }
  }

  /**
   * `a.testCollision(b, info)` on the shapes' current state: a box tests boxes and
   * the ground; a ground plane reports nothing, whatever it meets (a box meets the
   * ground through the box's own test).
   */
  function ShapeContact(a: Shape, b: Shape): Option<CollisionInfo>
    requires a.Valid()
  {
    match a
    case GroundShape(_) => None
    case BoxShape(position, size, axes) =>
      match b
      case BoxShape(otherPosition, otherSize, _) => BoxBoxContact(position, size, otherPosition, otherSize)
      case GroundShape(groundY) => BoxGroundContact(position, size, axes, groundY)
  }

  /**
   * A ground plane never reports a contact; a reported depth is never negative;
   * a box reports the ground exactly when its lowest point is below it; and the
   * box-box test ignores the boxes' orientation axes.
   */
  lemma ShapeContactMeaning(a: Shape, b: Shape)
    requires a.Valid()
    ensures a.GroundShape? ==> ShapeContact(a, b).None?
    ensures ShapeContact(a, b).Some? ==> ShapeContact(a, b).value.penetration >= 0.0
    ensures a.BoxShape? && b.GroundShape? ==>
      (ShapeContact(a, b).Some? <==> LowestY(a.position, a.size, a.axes) < b.groundY)
    ensures forall axesA, axesB :: |axesA| == 3 && a.BoxShape? && b.BoxShape? ==>
      ShapeContact(a.(axes := axesA), b.(axes := axesB)) == ShapeContact(a, b)
  {
    if a.BoxShape? {
      match b
      case BoxShape(_, _, _) => BoxBoxContactIsLeastOverlap(a.position, a.size, b.position, b.size);
      case GroundShape(groundY) => GroundContactBelowLowest(a.position, a.size, a.axes, groundY);
    }
  }

  /** Two boxes meet each other or not whichever one runs the test. */
  lemma BoxesMeetSymmetrically(a: Shape, b: Shape)
    requires a.BoxShape? && b.BoxShape? && a.Valid() && b.Valid()
    ensures ShapeContact(a, b).Some? <==> ShapeContact(b, a).Some?
  {
    BoxBoxSymmetric(a.position, a.size, b.position, b.size);
  }

  /** A collider as `CollisionDetection` holds it: a reference to a box or to a ground plane. */
  datatype ColliderRef = BoxRef(box: BoxCollider) | GroundRef(ground: GroundCollider)
  {
    function Repr(): set<object> {
      if BoxRef? then {box, box.axes} else {ground}
    }

    predicate Valid() {
      BoxRef? ==> box.Valid()
    }

    /** The collider's current state. */
    function Snapshot(): (s: Shape)
      reads Repr()
      ensures Valid() ==> s.Valid()
      ensures BoxRef? <==> s.BoxShape?
    {
      if BoxRef? then BoxShape(box.position, box.size, box.axes[..])
      else GroundShape(ground.position.y)
    }
  }

  /** `testCollision`, dispatched on the shapes of both colliders. */
  method TestCollision(a: ColliderRef, b: ColliderRef) returns (r: Option<CollisionInfo>)
    requires a.Valid()
    ensures r == ShapeContact(a.Snapshot(), b.Snapshot())
  {
    match a
    case GroundRef(_) =>
      r := None;
    case BoxRef(box) =>
      match b
      case BoxRef(other) =>
        r := BoxBoxContact(box.position, box.size, other.position, other.size);
      case GroundRef(ground) =>
        r := box.TestCollisionWithGround(ground);
  }

  // ---------------------------------------------------------------------------
  // All pairs

  /** `Manifold`: the collider whose test hit, the other one, and the contact. */
  datatype Manifold = Manifold(colliderA: ColliderRef, colliderB: ColliderRef, info: CollisionInfo)

  /**
   * The manifold for one pair with shapes `sa` and `sb`: `a` against `b` first, and
   * `b` against `a` (with the roles swapped) only when that misses.
   */
  function PairManifold(a: ColliderRef, b: ColliderRef, sa: Shape, sb: Shape): Option<Manifold>
    requires sa.Valid() && sb.Valid()
  {
    var ab := ShapeContact(sa, sb);
    if ab.Some? then Some(Manifold(a, b, ab.value))
    else
      var ba := ShapeContact(sb, sa);
      if ba.Some? then Some(Manifold(b, a, ba.value)) else None
  }

  /**
   * A pair yields a manifold exactly when one of the two tests hits; the manifold
   * names first the collider whose test hit, and `b` leads only when `a` missed.
   */
  lemma PairManifoldMeaning(a: ColliderRef, b: ColliderRef, sa: Shape, sb: Shape)
    requires sa.Valid() && sb.Valid()
    ensures PairManifold(a, b, sa, sb).None? <==> ShapeContact(sa, sb).None? && ShapeContact(sb, sa).None?
    ensures var r := PairManifold(a, b, sa, sb);
      r.Some? ==>
        || (r.value.colliderA == a && r.value.colliderB == b && ShapeContact(sa, sb) == Some(r.value.info))
        || (&& r.value.colliderA == b && r.value.colliderB == a
            && ShapeContact(sa, sb).None? && ShapeContact(sb, sa) == Some(r.value.info))
  {
  }

  /** A box and a ground plane always give the box's view of the contact, wherever they are listed. */
  lemma BoxLeadsAgainstGround(a: ColliderRef, b: ColliderRef, sa: Shape, sb: Shape)
    requires sa.Valid() && sb.Valid() && sa.GroundShape? && sb.BoxShape?
    ensures PairManifold(a, b, sa, sb).Some? ==> PairManifold(a, b, sa, sb).value.colliderA == b
    ensures PairManifold(a, b, sa, sb) == PairManifold(b, a, sb, sa)
  {
  }

  function ReprOf(cs: seq<ColliderRef>): set<object> {
    set i, o | 0 <= i < |cs| && o in cs[i].Repr() :: o
  }

  predicate AllValid(cs: seq<ColliderRef>) {
    forall i :: 0 <= i < |cs| ==> cs[i].Valid()
  }

  predicate ShapesValid(ss: seq<Shape>) {
    forall i :: 0 <= i < |ss| ==> ss[i].Valid()
  }

  /** `ss` is the current shape of each collider in `cs`. */
  predicate SnapshotsAre(cs: seq<ColliderRef>, ss: seq<Shape>)
    reads ReprOf(cs)
  {
    |ss| == |cs| && forall k :: 0 <= k < |cs| ==> cs[k].Snapshot() == ss[k]
  }

  /** The current shapes of a list of colliders. */
  function Shapes(cs: seq<ColliderRef>): (ss: seq<Shape>)
    reads ReprOf(cs)
    ensures |ss| == |cs|
    ensures forall i :: 0 <= i < |cs| ==> ss[i] == cs[i].Snapshot()
    ensures AllValid(cs) ==> ShapesValid(ss)
  {
    seq(|cs|, i requires 0 <= i < |cs| reads ReprOf(cs) => cs[i].Snapshot())
  }

  /**
   * What `detect` finds for each pair of indices i < j: pair (i, j)'s manifold
   * over the shapes `ss` (nothing for indices outside the list).
   */
  function PairResults(cs: seq<ColliderRef>, ss: seq<Shape>): (nat, nat) -> Option<Manifold>
    requires |ss| == |cs|
  {
    (i: nat, j: nat) =>
      if i < j < |cs| && ss[i].Valid() && ss[j].Valid() then PairManifold(cs[i], cs[j], ss[i], ss[j]) else None
  }

  /**
   * `pair` gives pair (i, j)'s manifold for every pair of valid shapes; the
   * trigger keeps this fact dormant until a pair's manifold is asked for.
   */
  ghost predicate Agrees(cs: seq<ColliderRef>, ss: seq<Shape>, pair: (nat, nat) -> Option<Manifold>) {
    && |ss| == |cs|
    && forall i: nat, j: nat {:trigger PairManifold(cs[i], cs[j], ss[i], ss[j])} ::
         i < j < |cs| && ss[i].Valid() && ss[j].Valid() ==> pair(i, j) == PairManifold(cs[i], cs[j], ss[i], ss[j])
  }

  lemma PairResultsAgree(cs: seq<ColliderRef>, ss: seq<Shape>)
    requires |ss| == |cs|
    ensures Agrees(cs, ss, PairResults(cs, ss))
  {
  }

  function OptionToSeq(m: Option<Manifold>): seq<Manifold> {
    if m.Some? then [m.value] else []
  }

  /** The manifolds of the pairs (i, i+1), ..., (i, k-1), in that order. */
  function RowManifolds(pair: (nat, nat) -> Option<Manifold>, i: nat, k: nat): seq<Manifold>
    decreases k
  {
    if k <= i + 1 then [] else RowManifolds(pair, i, k - 1) + OptionToSeq(pair(i, k - 1))
  }

  /** Row i up to k has at most one manifold per pair (i, j), i < j < k. */
  lemma {:induction false} RowLength(pair: (nat, nat) -> Option<Manifold>, i: nat, k: nat)
    ensures |RowManifolds(pair, i, k)| <= if k > i then k - i - 1 else 0
    decreases k
  {
    if k > i + 1 {
      RowLength(pair, i, k - 1);
    }
  }

  /** The manifolds of every pair i < j < n with i below `r`, in (i, j) order. */
  function AllManifolds(pair: (nat, nat) -> Option<Manifold>, n: nat, r: nat): seq<Manifold>
    requires r <= n
  {
    if r == 0 then [] else AllManifolds(pair, n, r - 1) + RowManifolds(pair, r - 1, n)
  }

  /** The number of pairs i < j < n whose first index is below r. */
  function PairsBefore(n: nat, r: nat): nat
    requires r <= n
  {
    if r == 0 then 0 else PairsBefore(n, r - 1) + (n - r)
  }

  /** Adding row r - 1, which has n - r pairs, to the rows before it. */
  lemma PairCountStep(n: int, r: int)
    ensures (r - 1) * (2 * n - (r - 1) - 1) + 2 * (n - r) == r * (2 * n - r - 1)
  {
  }

  /** Twice the pairs below row r is r (2n - r - 1); over all rows, n (n - 1). */
  lemma {:induction false} PairsBeforeClosedForm(n: nat, r: nat)
    requires r <= n
    ensures 2 * PairsBefore(n, r) == r * (2 * n - r - 1)
  {
    if r > 0 {
      PairsBeforeClosedForm(n, r - 1);
      PairCountStep(n, r);
    }
  }

  /** Each pair contributes at most one manifold. */
  lemma {:induction false} ManifoldsPerPair(pair: (nat, nat) -> Option<Manifold>, n: nat, r: nat)
    requires r <= n
    ensures |AllManifolds(pair, n, r)| <= PairsBefore(n, r)
  {
    if r > 0 {
      ManifoldsPerPair(pair, n, r - 1);
      RowLength(pair, r - 1, n);
    }
  }

  /** At most one manifold per unordered pair: n (n - 1) / 2 in all. */
  lemma ManifoldCountBound(pair: (nat, nat) -> Option<Manifold>, n: nat)
    ensures 2 * |AllManifolds(pair, n, n)| <= n * (n - 1)
  {
    ManifoldsPerPair(pair, n, n);
    PairsBeforeClosedForm(n, n);
  }

  lemma InAppend<T>(a: seq<T>, b: seq<T>, x: T)
    requires x in a || x in b
    ensures x in a + b
  {
  }

  lemma InAppendSplit<T>(a: seq<T>, b: seq<T>, x: T)
    requires x in a + b
    ensures x in a || x in b
  {
  }

  lemma InPrefix<T>(a: seq<T>, b: seq<T>, x: T)
    requires a <= b && x in a
    ensures x in b
  {
    var k :| 0 <= k < |a| && a[k] == x;
    assert b[k] == x;
  }

  /** A row only grows: row i up to s is a prefix of row i up to k, for s <= k. */
  lemma {:induction false} RowPrefix(pair: (nat, nat) -> Option<Manifold>, i: nat, s: nat, k: nat)
    requires s <= k
    ensures RowManifolds(pair, i, s) <= RowManifolds(pair, i, k)
    decreases k
  {
    if s < k {
      RowPrefix(pair, i, s, k - 1);
    }
  }

  /** The pass only grows: the rows below s are a prefix of the rows below r, for s <= r. */
  lemma {:induction false} AllPrefix(pair: (nat, nat) -> Option<Manifold>, n: nat, s: nat, r: nat)
    requires s <= r <= n
    ensures AllManifolds(pair, n, s) <= AllManifolds(pair, n, r)
    decreases r
  {
    if s < r {
      AllPrefix(pair, n, s, r - 1);
    }
  }

  /** Every manifold of row i up to k is the manifold of one pair (i, j), i < j < k. */
  lemma {:induction false} RowHit(pair: (nat, nat) -> Option<Manifold>, i: nat, k: nat, m: Manifold) returns (j: nat)
    requires m in RowManifolds(pair, i, k)
    ensures i < j < k && pair(i, j) == Some(m)
    decreases k
  {
    InAppendSplit(RowManifolds(pair, i, k - 1), OptionToSeq(pair(i, k - 1)), m);
    if m in RowManifolds(pair, i, k - 1) {
      j := RowHit(pair, i, k - 1, m);
    } else {
      j := k - 1;
    }
  }

  /** Every manifold of the pass is the manifold of one pair i < j. */
  lemma {:induction false} ManifoldIsHit(pair: (nat, nat) -> Option<Manifold>, n: nat, r: nat, m: Manifold)
    returns (i: nat, j: nat)
    requires r <= n && m in AllManifolds(pair, n, r)
    ensures i < r && i < j < n && pair(i, j) == Some(m)
    decreases r
  {
    InAppendSplit(AllManifolds(pair, n, r - 1), RowManifolds(pair, r - 1, n), m);
    if m in AllManifolds(pair, n, r - 1) {
      i, j := ManifoldIsHit(pair, n, r - 1, m);
    } else {
      i, j := LastRowHit(pair, n, r, m);
    }
  }

  lemma LastRowHit(pair: (nat, nat) -> Option<Manifold>, n: nat, r: nat, m: Manifold) returns (i: nat, j: nat)
    requires 0 < r <= n && m in RowManifolds(pair, r - 1, n)
    ensures i < r && i < j < n && pair(i, j) == Some(m)
  {
    i := r - 1;
    j := RowHit(pair, i, n, m);
  }

  /** A pair with a manifold has it in its row. */
  lemma RowContains(pair: (nat, nat) -> Option<Manifold>, i: nat, j: nat, n: nat)
    requires i < j < n && pair(i, j).Some?
    ensures pair(i, j).value in RowManifolds(pair, i, n)
  {
    InAppend(RowManifolds(pair, i, j), OptionToSeq(pair(i, j)), pair(i, j).value);
    RowPrefix(pair, i, j + 1, n);
    InPrefix(RowManifolds(pair, i, j + 1), RowManifolds(pair, i, n), pair(i, j).value);
  }

  /** A manifold of row i is in the output of the whole pass. */
  lemma AllContainsRow(pair: (nat, nat) -> Option<Manifold>, n: nat, i: nat, m: Manifold)
    requires i < n && m in RowManifolds(pair, i, n)
    ensures m in AllManifolds(pair, n, n)
  {
    InAppend(AllManifolds(pair, n, i), RowManifolds(pair, i, n), m);
    AllPrefix(pair, n, i + 1, n);
    InPrefix(AllManifolds(pair, n, i + 1), AllManifolds(pair, n, n), m);
  }

  /** Every pair i < j with a manifold has it in the output of the pass. */
  lemma HitsAreInOutput(pair: (nat, nat) -> Option<Manifold>, n: nat, i: nat, j: nat)
    requires i < j < n && pair(i, j).Some?
    ensures pair(i, j).value in AllManifolds(pair, n, n)
  {
    RowContains(pair, i, j, n);
    AllContainsRow(pair, n, i, pair(i, j).value);
  }

  /** Pair (i, j) of the collider list is reported whenever either collider's test hits the other. */
  lemma HitsAreReported(cs: seq<ColliderRef>, ss: seq<Shape>, i: nat, j: nat)
    requires |ss| == |cs| && ShapesValid(ss) && i < j < |cs|
    requires ShapeContact(ss[i], ss[j]).Some? || ShapeContact(ss[j], ss[i]).Some?
    ensures PairManifold(cs[i], cs[j], ss[i], ss[j]).Some?
    ensures PairManifold(cs[i], cs[j], ss[i], ss[j]).value in AllManifolds(PairResults(cs, ss), |cs|, |cs|)
  {
    PairManifoldMeaning(cs[i], cs[j], ss[i], ss[j]);
    assert PairResults(cs, ss)(i, j) == PairManifold(cs[i], cs[j], ss[i], ss[j]);
    HitsAreInOutput(PairResults(cs, ss), |cs|, i, j);
  }

  /** The body of `detect`'s inner loop: collider i tests collider j, and only on a miss does j test i. */
  method TestPair(cs: seq<ColliderRef>, ghost ss: seq<Shape>, i: nat, j: nat, ghost pair: (nat, nat) -> Option<Manifold>)
    returns (m: Option<Manifold>)
    requires AllValid(cs) && i < j < |cs| && SnapshotsAre(cs, ss) && Agrees(cs, ss, pair)
    ensures SnapshotsAre(cs, ss)
    ensures m == pair(i, j)
  {
    var a, b := cs[i], cs[j];
    assert a.Snapshot() == ss[i] && b.Snapshot() == ss[j];
    assert pair(i, j) == PairManifold(a, b, ss[i], ss[j]);
    var info := TestCollision(a, b);
    if info.Some? {
      return Some(Manifold(a, b, info.value));
    }
    info := TestCollision(b, a);
    if info.Some? {
      return Some(Manifold(b, a, info.value));
    }
    return None;
  }

  /** Appending pair (i, j)'s manifold, if any, extends row i from `j` to `j + 1`. */
  lemma RowExtends(pair: (nat, nat) -> Option<Manifold>, i: nat, j: nat, row: seq<Manifold>, m: Option<Manifold>)
    requires i < j && row == RowManifolds(pair, i, j) && m == pair(i, j)
    ensures RowManifolds(pair, i, j + 1) == if m.Some? then row + [m.value] else row
  {
  }

  /** Appending row i to the rows before it gives the rows below `i + 1`. */
  lemma AllExtends(pair: (nat, nat) -> Option<Manifold>, n: nat, i: nat, done: seq<Manifold>, row: seq<Manifold>)
    requires i < n && done == AllManifolds(pair, n, i) && row == RowManifolds(pair, i, n)
    ensures AllManifolds(pair, n, i + 1) == done + row
  {
  }

  /** The inner loop of `detect`: the manifolds of pairs (i, i+1), ..., (i, n-1), in that order. */
  method DetectRow(cs: seq<ColliderRef>, ghost ss: seq<Shape>, i: nat, ghost pair: (nat, nat) -> Option<Manifold>)
    returns (row: seq<Manifold>)
    requires AllValid(cs) && i < |cs| && SnapshotsAre(cs, ss) && Agrees(cs, ss, pair)
    ensures SnapshotsAre(cs, ss)
    ensures row == RowManifolds(pair, i, |cs|)
  {
    row := [];
    var j := i + 1;
    while j < |cs|
      invariant i + 1 <= j <= |cs|
      invariant SnapshotsAre(cs, ss)
      invariant row == RowManifolds(pair, i, j)
    {
      var m := TestPair(cs, ss, i, j, pair);
      RowExtends(pair, i, j, row, m);
      if m.Some? {
        row := row + [m.value];
      }
      j := j + 1;
    }
  }

  /** The two loops of `detect`: every pair i < j in (i, j) order. */
  method DetectPairs(cs: seq<ColliderRef>, ghost ss: seq<Shape>, ghost pair: (nat, nat) -> Option<Manifold>)
    returns (manifolds: seq<Manifold>)
    requires AllValid(cs) && SnapshotsAre(cs, ss) && Agrees(cs, ss, pair)
    ensures SnapshotsAre(cs, ss)
    ensures manifolds == AllManifolds(pair, |cs|, |cs|)
  {
    manifolds := [];
    var i := 0;
    while i < |cs|
      invariant 0 <= i <= |cs|
      invariant SnapshotsAre(cs, ss)
      invariant manifolds == AllManifolds(pair, |cs|, i)
    {
      var row := DetectRow(cs, ss, i, pair);
      AllExtends(pair, |cs|, i, manifolds, row);
      manifolds := manifolds + row;
      i := i + 1;
    }
  }

  /** `CollisionDetection`: a non-owning, ordered list of colliders. */
  class CollisionDetection {
    var colliders: seq<ColliderRef>

    constructor ()
      ensures colliders == []
    {
      colliders := [];
    }

    /** `addCollider(c)`: null is ignored; anything else is appended. */
    method AddCollider(c: Option<ColliderRef>)
      modifies this
      ensures c.None? ==> colliders == old(colliders)
      ensures c.Some? ==> colliders == old(colliders) + [c.value]
    {
      if c.Some? {
        colliders := colliders + [c.value];
      }
    }

    /** `removeCollider(c)`: erases the first occurrence of `c`, if any. */
    method RemoveCollider(c: ColliderRef)
      modifies this
      ensures c !in old(colliders) ==> colliders == old(colliders)
      ensures c in old(colliders) ==>
        exists i :: (&& 0 <= i < |old(colliders)| && old(colliders)[i] == c
                     && (forall j :: 0 <= j < i ==> old(colliders)[j] != c)
                     && colliders == old(colliders)[..i] + old(colliders)[i + 1..])
    {
      var i := 0;
      while i < |colliders|
        invariant 0 <= i <= |colliders|
        invariant colliders == old(colliders)
        invariant forall j :: 0 <= j < i ==> colliders[j] != c
      {
        if colliders[i] == c {
          colliders := colliders[..i] + colliders[i + 1..];
          return;
        }
        i := i + 1;
      }
    }

    /** `clear()` */
    method Clear()
      modifies this
      ensures colliders == []
    {
      colliders := [];
    }

    /**
     * `detect(manifolds)`: the output starts empty and receives one manifold per
     * colliding pair i < j, in (i, j) order. Nothing is modified.
     */
    method Detect() returns (manifolds: seq<Manifold>)
      requires AllValid(colliders)
      ensures manifolds == AllManifolds(PairResults(colliders, Shapes(colliders)), |colliders|, |colliders|)
    {
      var cs := colliders;
      ghost var ss := Shapes(cs);
      PairResultsAgree(cs, ss);
      manifolds := DetectPairs(cs, ss, PairResults(cs, ss));
      assert Shapes(colliders) == ss;
    }
  }
}
