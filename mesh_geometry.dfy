/** Geometry of the voxel-to-quad mesher of tools/convert.py: the axis swap,
    the six cube faces and which of them a block exposes.  With the converter's
    scale of 1 and zero global offset every corner coordinate is an integer. */
module MeshGeometry {

  /** An integer triple: a voxel position, a quad corner or a face normal. */
  datatype Vec3 = Vec3(x: int, y: int, z: int)

  function Plus(a: Vec3, b: Vec3): Vec3 {
    Vec3(a.x + b.x, a.y + b.y, a.z + b.z)
  }

  function Minus(a: Vec3, b: Vec3): Vec3 {
    Vec3(a.x - b.x, a.y - b.y, a.z - b.z)
  }

  /** swap_coord: from the grid's native axes to the output axes, (x, y, z) to
      (-x, z, y).  The model argument the source passes along is never read. */
  function SwapCoord(p: Vec3): (r: Vec3)
    ensures Vec3(-r.x, r.z, r.y) == p
  {
    Vec3(-p.x, p.z, p.y)
  }

  /** The axis swap is its own inverse. */
  lemma SwapCoordInvolution(p: Vec3)
    ensures SwapCoord(SwapCoord(p)) == p
    ensures SwapCoord(Vec3(1, 2, 3)) == Vec3(-1, 3, 2)
  {
  }

  /** The sparse voxel grid: occupied native coordinates to palette index.
      `f.is_solid(p)` is `p in g`. */
  type Grid = map<Vec3, nat>

  /** The six neighbour tests of the mesher, named by the native direction they
      probe, in the order the source performs them. */
  datatype Side = ZPlus | ZMinus | YPlus | YMinus | XMinus | XPlus

  const NeighbourSides: seq<Side> := [ZPlus, ZMinus, YPlus, YMinus, XMinus, XPlus]

  /** Native-coordinate step from a block to the neighbour probed for a side. */
  function Offset(s: Side): Vec3 {
    match s
    case ZPlus => Vec3(0, 0, 1)
    case ZMinus => Vec3(0, 0, -1)
    case YPlus => Vec3(0, 1, 0)
    case YMinus => Vec3(0, -1, 0)
    case XMinus => Vec3(-1, 0, 0)
    case XPlus => Vec3(1, 0, 0)
  }

  /** Output-coordinate normal the source passes to add_quad for a side. */
  function Normal(s: Side): Vec3 {
    match s
    case ZPlus => Vec3(0, 1, 0)
    case ZMinus => Vec3(0, -1, 0)
    case YPlus => Vec3(0, 0, 1)
    case YMinus => Vec3(0, 0, -1)
    case XMinus => Vec3(1, 0, 0)
    case XPlus => Vec3(-1, 0, 0)
  }

  /** The normal of a face is the probed native direction carried to output
      axes: each quad faces the neighbour whose emptiness exposed it. */
  lemma NormalIsSwappedOffset(s: Side)
    ensures Normal(s) == SwapCoord(Offset(s))
    ensures Normal(s) in CanonicalNormals
  {
  }

  /** Distinct sides have distinct normals, so a normal names its side. */
  lemma NormalInjective(s: Side, t: Side)
    ensures Normal(s) == Normal(t) <==> s == t
  {
    match s
    case ZPlus =>
    case ZMinus =>
    case YPlus =>
    case YMinus =>
    case XMinus =>
    case XPlus =>
  }

  /** The six axis normals; the only values ever passed as a normal. */
  const CanonicalNormals: set<Vec3> :=
    {Vec3(0, 1, 0), Vec3(0, -1, 0), Vec3(0, 0, 1), Vec3(0, 0, -1), Vec3(1, 0, 0), Vec3(-1, 0, 0)}

  lemma CanonicalNormalsCount()
    ensures |CanonicalNormals| == 6
    ensures forall s: Side :: Normal(s) in CanonicalNormals
  {
  }

  /** One quad as add_quad receives it: a normal and four corners in winding order. */
  datatype Quad = Quad(normal: Vec3, a: Vec3, b: Vec3, c: Vec3, d: Vec3)

  /** Corner k (0 to 3) of a quad. */
  function Corner(q: Quad, k: nat): Vec3
    requires k < 4
  {
    if k == 0 then q.a else if k == 1 then q.b else if k == 2 then q.c else q.d
  }

  /** k is one of the eight corners of the unit cube whose lowest corner is lo. */
  predicate CubeCorner(lo: Vec3, k: Vec3) {
    var d := Minus(k, lo);
    0 <= d.x <= 1 && 0 <= d.y <= 1 && 0 <= d.z <= 1
  }

  /** k lies on the face of that cube whose outward normal is n: seen from the
      cube's centre lo + (1/2, 1/2, 1/2), k is half a unit along n. */
  predicate OnFace(lo: Vec3, n: Vec3, k: Vec3) {
    var d := Minus(k, lo);
    2 * (d.x * n.x + d.y * n.y + d.z * n.z) - (n.x + n.y + n.z) == 1
  }

  /** k is a corner of the cube lying on its face with outward normal n. */
  predicate FaceCorner(lo: Vec3, n: Vec3, k: Vec3) {
    CubeCorner(lo, k) && OnFace(lo, n, k)
  }

  /** The triangle (u, v, w) winds counter-clockwise around n (seen from the
      side n points to), with the unit area a quad corner triangle has. */
  predicate Winds(u: Vec3, v: Vec3, w: Vec3, n: Vec3) {
    // the cross product of the edges u->v and u->w, component by component
    var e, f := Minus(v, u), Minus(w, u);
    e.y * f.z - e.z * f.y == n.x && e.z * f.x - e.x * f.z == n.y && e.x * f.y - e.y * f.x == n.z
  }

  /** The quad add_quad is given for one side of the block whose lowest output
      corner is lo: x1, y1, z1 are lo and x2, y2, z2 are lo + 1
      (tools/convert.py:116-121). */
  function QuadOf(lo: Vec3, s: Side): (q: Quad)
    ensures q.normal == Normal(s)
  {
    var x1, y1, z1 := lo.x, lo.y, lo.z;
    var x2, y2, z2 := lo.x + 1, lo.y + 1, lo.z + 1;
    match s
    case ZPlus =>
      Quad(Normal(s), Vec3(x1, y2, z1), Vec3(x1, y2, z2), Vec3(x2, y2, z2), Vec3(x2, y2, z1))
    case ZMinus =>
      Quad(Normal(s), Vec3(x1, y1, z1), Vec3(x2, y1, z1), Vec3(x2, y1, z2), Vec3(x1, y1, z2))
    case YPlus =>
      Quad(Normal(s), Vec3(x1, y1, z2), Vec3(x2, y1, z2), Vec3(x2, y2, z2), Vec3(x1, y2, z2))
    case YMinus =>
      Quad(Normal(s), Vec3(x1, y1, z1), Vec3(x1, y2, z1), Vec3(x2, y2, z1), Vec3(x2, y1, z1))
    case XMinus =>
      Quad(Normal(s), Vec3(x2, y1, z1), Vec3(x2, y2, z1), Vec3(x2, y2, z2), Vec3(x2, y1, z2))
    case XPlus =>
      Quad(Normal(s), Vec3(x1, y1, z1), Vec3(x1, y1, z2), Vec3(x1, y2, z2), Vec3(x1, y2, z1))
  }

  /** Every quad the mesher emits is a face of its block's cube: its four
      corners are corners of the cube lying on the face the normal points out of. */
  lemma QuadOnFace(lo: Vec3, s: Side)
    ensures var q := QuadOf(lo, s);
      q.normal == Normal(s) &&
      FaceCorner(lo, q.normal, q.a) && FaceCorner(lo, q.normal, q.b) &&
      FaceCorner(lo, q.normal, q.c) && FaceCorner(lo, q.normal, q.d)
  {
    match s
    case ZPlus =>
    case ZMinus =>
    case YPlus =>
    case YMinus =>
    case XMinus =>
    case XPlus =>
  }

  /** The four corners of an emitted quad are pairwise distinct. */
  lemma QuadCornersDistinct(lo: Vec3, s: Side)
    ensures var q := QuadOf(lo, s);
      q.a != q.b && q.a != q.c && q.a != q.d && q.b != q.c && q.b != q.d && q.c != q.d
  {
    match s
    case ZPlus =>
    case ZMinus =>
    case YPlus =>
    case YMinus =>
    case XMinus =>
    case XPlus =>
  }

  /** Both triangles add_quad builds from a quad, (a, b, c) and (c, d, a),
      wind counter-clockwise seen from outside the cube. */
  lemma QuadWinds(lo: Vec3, s: Side)
    ensures var q := QuadOf(lo, s); Winds(q.a, q.b, q.c, q.normal) && Winds(q.c, q.d, q.a, q.normal)
  {
    match s
    case ZPlus =>
    case ZMinus =>
    case YPlus =>
    case YMinus =>
    case XMinus =>
    case XPlus =>
  }

  /** Whether the neighbour of p on side s is occupied, in native coordinates. */
  predicate SolidNeighbour(g: Grid, p: Vec3, s: Side) {
    Plus(p, Offset(s)) in g
  }

  /** The quad emitted for one side: none when the neighbour is solid. */
  function FaceIf(g: Grid, p: Vec3, lo: Vec3, s: Side): (r: seq<Quad>)
    ensures r == [] <==> SolidNeighbour(g, p, s)
  {
    if SolidNeighbour(g, p, s) then [] else [QuadOf(lo, s)]
  }

  /** The quads emitted for the given sides of the block at native position p,
      whose lowest output corner is lo, side by side in the order given. */
  function SideQuads(g: Grid, p: Vec3, lo: Vec3, sides: seq<Side>): seq<Quad> {
    if sides == [] then [] else FaceIf(g, p, lo, sides[0]) + SideQuads(g, p, lo, sides[1..])
  }

  /** The quads emitted for the block at native position p, whose lowest output
      corner is lo, in the order of tools/convert.py:132-177. */
  function Faces(g: Grid, p: Vec3, lo: Vec3): seq<Quad> {
    SideQuads(g, p, lo, NeighbourSides)
  }

  /** Faces written out side by side. */
  lemma FacesSix(g: Grid, p: Vec3, lo: Vec3)
    ensures Faces(g, p, lo) ==
      FaceIf(g, p, lo, ZPlus) + FaceIf(g, p, lo, ZMinus) + FaceIf(g, p, lo, YPlus) +
      FaceIf(g, p, lo, YMinus) + FaceIf(g, p, lo, XMinus) + FaceIf(g, p, lo, XPlus)
  {
    var t5 := [XPlus];
    var t4 := [XMinus] + t5;
    var t3 := [YMinus] + t4;
    var t2 := [YPlus] + t3;
    var t1 := [ZMinus] + t2;
    assert NeighbourSides == [ZPlus] + t1;
    SideQuadsStep(g, p, lo, XPlus, []);
    SideQuadsStep(g, p, lo, XMinus, t5);
    SideQuadsStep(g, p, lo, YMinus, t4);
    SideQuadsStep(g, p, lo, YPlus, t3);
    SideQuadsStep(g, p, lo, ZMinus, t2);
    SideQuadsStep(g, p, lo, ZPlus, t1);
  }

  lemma SideQuadsStep(g: Grid, p: Vec3, lo: Vec3, s: Side, rest: seq<Side>)
    ensures SideQuads(g, p, lo, [s] + rest) == FaceIf(g, p, lo, s) + SideQuads(g, p, lo, rest)
  {
    assert ([s] + rest)[1..] == rest;
  }

  /** How many of the given sides have a solid neighbour. */
  function CountSolid(g: Grid, p: Vec3, sides: seq<Side>): (n: nat)
    ensures n <= |sides|
  {
    if sides == [] then 0
    else (if SolidNeighbour(g, p, sides[0]) then 1 else 0) + CountSolid(g, p, sides[1..])
  }

  /** Each side emits one quad unless its neighbour is solid. */
  lemma {:induction false} SideQuadsCount(g: Grid, p: Vec3, lo: Vec3, sides: seq<Side>)
    ensures |SideQuads(g, p, lo, sides)| == |sides| - CountSolid(g, p, sides)
  {
    if sides != [] {
      SideQuadsCount(g, p, lo, sides[1..]);
    }
  }

  /** A block contributes six quads minus one per solid neighbour. */
  lemma FacesCount(g: Grid, p: Vec3, lo: Vec3)
    ensures |Faces(g, p, lo)| == 6 - CountSolid(g, p, NeighbourSides)
  {
    SideQuadsCount(g, p, lo, NeighbourSides);
  }

  /** A side's quad is emitted exactly when its native neighbour is empty. */
  lemma FaceEmittedIff(g: Grid, p: Vec3, lo: Vec3, s: Side)
    ensures QuadOf(lo, s) in Faces(g, p, lo) <==> !SolidNeighbour(g, p, s)
  {
    FacesSix(g, p, lo);
    forall t: Side | QuadOf(lo, t) == QuadOf(lo, s)
      ensures t == s
    {
      NormalInjective(s, t);
    }
    match s
    case ZPlus =>
    case ZMinus =>
    case YPlus =>
    case YMinus =>
    case XMinus =>
    case XPlus =>
  }

  /** A block with no solid neighbour emits six quads, one per axis normal. */
  lemma IsolatedBlock(g: Grid, p: Vec3, lo: Vec3)
    requires forall s: Side :: !SolidNeighbour(g, p, s)
    ensures |Faces(g, p, lo)| == 6
    ensures (set q | q in Faces(g, p, lo) :: q.normal) == CanonicalNormals
  {
    FacesSix(g, p, lo);
    assert Faces(g, p, lo) ==
      [QuadOf(lo, ZPlus), QuadOf(lo, ZMinus), QuadOf(lo, YPlus),
       QuadOf(lo, YMinus), QuadOf(lo, XMinus), QuadOf(lo, XPlus)];
  }

  /** A block whose six neighbours are all solid emits nothing. */
  lemma EnclosedBlock(g: Grid, p: Vec3, lo: Vec3)
    requires forall s: Side :: SolidNeighbour(g, p, s)
    ensures Faces(g, p, lo) == []
  {
    FacesSix(g, p, lo);
  }
}
