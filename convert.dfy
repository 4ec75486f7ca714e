/** The face-culling and material-grouping loop of convert_file
    (tools/convert.py:106-177), with scale 1 and zero global offset. */
module Convert {
  import opened MeshGeometry
  import opened MaterialSets

  /** x_off, y_off, z_off: the model offset in output axes, one unit lower in x
      (tools/convert.py:108-109). */
  function Origin(offset: Vec3): Vec3 {
    var o := SwapCoord(offset);
    Vec3(o.x - 1, o.y, o.z)
  }

  /** x1, y1, z1 of the block at native position p (tools/convert.py:115-118):
      the low corner of its output cube, which is the swap image of the block's
      native unit cell at p + offset.  The swap negates x, so that cell's x
      range [x, x + 1] lands on [-x - 1, -x]: hence x_off is one lower. */
  function Low(p: Vec3, offset: Vec3): (lo: Vec3)
    ensures forall k :: CubeCorner(lo, k) <==> CubeCorner(Plus(p, offset), SwapCoord(k))
  {
    Plus(SwapCoord(p), Origin(offset))
  }

  /** Neighbours in the grid are neighbours in the output: a native step d
      moves a block's cube by the swapped step. */
  lemma LowStep(p: Vec3, d: Vec3, offset: Vec3)
    ensures Low(Plus(p, d), offset) == Plus(Low(p, offset), SwapCoord(d))
  {
  }

  /** The scalars add_quad appends for a run of quads, in order. */
  function QuadsScalars(qs: seq<Quad>): (r: seq<int>)
    ensures |r| == 12 * |qs|
  {
    if qs == [] then [] else Scalars(qs[0]) + QuadsScalars(qs[1..])
  }

  lemma {:induction false} QuadsScalarsAppend(a: seq<Quad>, b: seq<Quad>)
    ensures QuadsScalars(a + b) == QuadsScalars(a) + QuadsScalars(b)
  {
    if a == [] {
      assert a + b == b;
    } else {
      assert (a + b)[0] == a[0] && (a + b)[1..] == a[1..] + b;
      QuadsScalarsAppend(a[1..], b);
      calc {
        QuadsScalars(a + b);
        Scalars(a[0]) + QuadsScalars(a[1..] + b);
        Scalars(a[0]) + (QuadsScalars(a[1..]) + QuadsScalars(b));
        (Scalars(a[0]) + QuadsScalars(a[1..])) + QuadsScalars(b);
      }
    }
  }

  /** The quads of the block at p, placed in output coordinates. */
  function BlockQuads(g: Grid, offset: Vec3, p: Vec3): seq<Quad> {
    Faces(g, p, Low(p, offset))
  }

  /** The shared vertex buffer once the loop has visited the blocks ps in order. */
  function MeshScalars(g: Grid, offset: Vec3, ps: seq<Vec3>): seq<int> {
    if ps == [] then []
    else MeshScalars(g, offset, ps[..|ps| - 1]) + QuadsScalars(BlockQuads(g, offset, ps[|ps| - 1]))
  }

  /** How many quads the blocks ps emit: six per block less its solid neighbours. */
  function QuadTotal(g: Grid, ps: seq<Vec3>): nat {
    if ps == [] then 0
    else QuadTotal(g, ps[..|ps| - 1]) + (6 - CountSolid(g, ps[|ps| - 1], NeighbourSides))
  }

  /** Four vertices, twelve scalars, per emitted quad. */
  lemma {:induction false} MeshScalarsLength(g: Grid, offset: Vec3, ps: seq<Vec3>)
    ensures |MeshScalars(g, offset, ps)| == 12 * QuadTotal(g, ps)
  {
    if ps != [] {
      var last := ps[|ps| - 1];
      MeshScalarsLength(g, offset, ps[..|ps| - 1]);
      FacesCount(g, last, Low(last, offset));
    }
  }

  /** Every block's palette index is a palette entry (the voxel model guarantees it). */
  predicate PaletteCovers(g: Grid, palette: seq<Rgb>) {
    forall p :: p in g ==> g[p] < |palette|
  }

  /** `order` lists only blocks of the grid. */
  predicate InGrid(g: Grid, order: seq<Vec3>) {
    forall i :: 0 <= i < |order| ==> order[i] in g
  }

  /** The colours of the blocks ps. */
  function Colours(g: Grid, palette: seq<Rgb>, ps: seq<Vec3>): set<Rgb>
    requires PaletteCovers(g, palette) && InGrid(g, ps)
  {
    if ps == [] then {}
    else Colours(g, palette, ps[..|ps| - 1]) + {palette[g[ps[|ps| - 1]]]}
  }

  /** The first block among ps whose colour is c. */
  function FirstBlock(g: Grid, palette: seq<Rgb>, ps: seq<Vec3>, c: Rgb): (b: Vec3)
    requires PaletteCovers(g, palette) && InGrid(g, ps) && c in Colours(g, palette, ps)
    ensures b in g
  {
    var pre, last := ps[..|ps| - 1], ps[|ps| - 1];
    assert forall i :: 0 <= i < |pre| ==> pre[i] == ps[i];
    if c in Colours(g, palette, pre) then FirstBlock(g, palette, pre, c) else last
  }

  /** FirstBlock is a block of ps of colour c, and no block before it in ps has
      that colour. */
  lemma {:induction false} FirstBlockIsFirst(g: Grid, palette: seq<Rgb>, ps: seq<Vec3>, c: Rgb)
    requires PaletteCovers(g, palette) && InGrid(g, ps) && c in Colours(g, palette, ps)
    ensures exists i ::
      0 <= i < |ps| && ps[i] == FirstBlock(g, palette, ps, c) &&
      palette[g[ps[i]]] == c && (forall j :: 0 <= j < i ==> palette[g[ps[j]]] != c)
  {
    var pre, last := ps[..|ps| - 1], ps[|ps| - 1];
    assert forall i :: 0 <= i < |pre| ==> pre[i] == ps[i];
    if c in Colours(g, palette, pre) {
      FirstBlockIsFirst(g, palette, pre, c);
      var i :| 0 <= i < |pre| && pre[i] == FirstBlock(g, palette, pre, c) &&
        palette[g[pre[i]]] == c && (forall j :: 0 <= j < i ==> palette[g[pre[j]]] != c);
      assert ps[i] == FirstBlock(g, palette, ps, c);
    } else {
      forall j | 0 <= j < |pre| ensures palette[g[ps[j]]] != c {
        ColourSeen(g, palette, pre, j);
      }
      assert ps[|ps| - 1] == FirstBlock(g, palette, ps, c);
    }
  }

  /** Visiting block p keeps the first block of every colour already met, and
      makes p the first block of its colour when that colour is new. */
  lemma FirstBlockStep(g: Grid, palette: seq<Rgb>, ps: seq<Vec3>, p: Vec3, c: Rgb, name: nat)
    requires PaletteCovers(g, palette) && InGrid(g, ps) && p in g
    requires c in Colours(g, palette, ps) ==> name == g[FirstBlock(g, palette, ps, c)]
    requires c !in Colours(g, palette, ps) && palette[g[p]] == c ==> name == g[p]
    ensures InGrid(g, ps + [p])
    ensures c in Colours(g, palette, ps + [p]) ==> name == g[FirstBlock(g, palette, ps + [p], c)]
  {
    AppendPrefix(ps, p);
  }

  /** The colours of the whole grid. */
  function GridColours(g: Grid, palette: seq<Rgb>): set<Rgb>
    requires PaletteCovers(g, palette)
  {
    set p | p in g :: palette[g[p]]
  }

  /** Visiting every block of the grid meets exactly the grid's colours. */
  lemma {:induction false} ColoursOfAll(g: Grid, palette: seq<Rgb>, ps: seq<Vec3>)
    requires PaletteCovers(g, palette) && InGrid(g, ps)
    ensures Colours(g, palette, ps) <= GridColours(g, palette)
    ensures (forall p :: p in g ==> p in ps) ==> Colours(g, palette, ps) == GridColours(g, palette)
  {
    if ps != [] {
      ColoursOfAll(g, palette, ps[..|ps| - 1]);
    }
    if forall p :: p in g ==> p in ps {
      forall c | c in GridColours(g, palette)
        ensures c in Colours(g, palette, ps)
      {
        var p :| p in g && palette[g[p]] == c;
        var i :| 0 <= i < |ps| && ps[i] == p;
        ColourSeen(g, palette, ps, i);
      }
    }
  }

  lemma {:induction false} ColourSeen(g: Grid, palette: seq<Rgb>, ps: seq<Vec3>, i: nat)
    requires PaletteCovers(g, palette) && InGrid(g, ps) && i < |ps|
    ensures palette[g[ps[i]]] in Colours(g, palette, ps)
  {
    if i < |ps| - 1 {
      ColourSeen(g, palette, ps[..|ps| - 1], i);
    }
  }

  /** How many quads the blocks of colour c among ps emit. */
  function ColourQuads(g: Grid, palette: seq<Rgb>, ps: seq<Vec3>, c: Rgb): nat
    requires PaletteCovers(g, palette) && InGrid(g, ps)
  {
    if ps == [] then 0
    else
      var last := ps[|ps| - 1];
      ColourQuads(g, palette, ps[..|ps| - 1], c) +
      (if palette[g[last]] == c then 6 - CountSolid(g, last, NeighbourSides) else 0)
  }

  /** A colour no block has receives no quad, and no colour receives more than all. */
  lemma {:induction false} ColourQuadsBound(g: Grid, palette: seq<Rgb>, ps: seq<Vec3>, c: Rgb)
    requires PaletteCovers(g, palette) && InGrid(g, ps)
    ensures ColourQuads(g, palette, ps, c) <= QuadTotal(g, ps)
    ensures c !in Colours(g, palette, ps) ==> ColourQuads(g, palette, ps, c) == 0
  {
    if ps != [] {
      ColourQuadsBound(g, palette, ps[..|ps| - 1], c);
    }
  }

  /** The entries the set of colour c holds once the blocks ps were visited:
      for each block of colour c, in visiting order, the six entries of each
      of its quads, numbered from where that block's vertices start in the
      shared buffer. */
  function ColourEntries(g: Grid, palette: seq<Rgb>, offset: Vec3, ps: seq<Vec3>, c: Rgb): seq<Entry>
    requires PaletteCovers(g, palette) && InGrid(g, ps)
  {
    if ps == [] then []
    else
      var pre, last := ps[..|ps| - 1], ps[|ps| - 1];
      ColourEntries(g, palette, offset, pre, c) +
      (if palette[g[last]] == c then RunEntries(BlockQuads(g, offset, last), |MeshScalars(g, offset, pre)| / 3) else [])
  }

  /** The entries of a run of quads name the run's own vertices. */
  lemma {:induction false} RunEntriesBelow(qs: seq<Quad>, base: int)
    ensures forall m :: 0 <= m < |RunEntries(qs, base)| ==>
      base <= RunEntries(qs, base)[m].vertex < base + 4 * |qs|
  {
    if qs != [] {
      RunEntriesBelow(qs[1..], base + 4);
      var r := RunEntries(qs, base);
      forall m | 0 <= m < |r| ensures base <= r[m].vertex < base + 4 * |qs| {
        if m < 6 {
          assert r[m] == QuadEntries(base, qs[0])[m];
        } else {
          assert r[m] == RunEntries(qs[1..], base + 4)[m - 6];
        }
      }
    }
  }

  /** The set of each colour names only vertices already in the shared buffer. */
  lemma {:induction false} ColourEntriesBelow(g: Grid, palette: seq<Rgb>, offset: Vec3, ps: seq<Vec3>, c: Rgb)
    requires PaletteCovers(g, palette) && InGrid(g, ps)
    ensures forall m :: 0 <= m < |ColourEntries(g, palette, offset, ps, c)| ==>
      0 <= ColourEntries(g, palette, offset, ps, c)[m].vertex < |MeshScalars(g, offset, ps)| / 3
  {
    if ps != [] {
      var pre, last := ps[..|ps| - 1], ps[|ps| - 1];
      ColourEntriesBelow(g, palette, offset, pre, c);
      MeshScalarsLength(g, offset, pre);
      var qs := BlockQuads(g, offset, last);
      var nv := |MeshScalars(g, offset, pre)| / 3;
      RunEntriesBelow(qs, nv);
      assert |MeshScalars(g, offset, ps)| / 3 == nv + 4 * |qs|;
      var a := ColourEntries(g, palette, offset, pre, c);
      var r := ColourEntries(g, palette, offset, ps, c);
      forall m | 0 <= m < |r| ensures 0 <= r[m].vertex < nv + 4 * |qs| {
        if m >= |a| {
          assert r[m] == RunEntries(qs, nv)[m - |a|];
        }
      }
    }
  }

  /** Six entries (twelve indices) per quad of colour c; none for a colour not met. */
  lemma {:induction false} ColourEntriesLength(g: Grid, palette: seq<Rgb>, offset: Vec3, ps: seq<Vec3>, c: Rgb)
    requires PaletteCovers(g, palette) && InGrid(g, ps)
    ensures |ColourEntries(g, palette, offset, ps, c)| == 6 * ColourQuads(g, palette, ps, c)
    ensures c !in Colours(g, palette, ps) ==> ColourEntries(g, palette, offset, ps, c) == []
  {
    if ps != [] {
      var last := ps[|ps| - 1];
      ColourEntriesLength(g, palette, offset, ps[..|ps| - 1], c);
      FacesCount(g, last, Low(last, offset));
    }
  }

  /** Quads of the colours cs, summed colour by colour. */
  function SumQuads(g: Grid, palette: seq<Rgb>, ps: seq<Vec3>, cs: seq<Rgb>): nat
    requires PaletteCovers(g, palette) && InGrid(g, ps)
  {
    if cs == [] then 0 else ColourQuads(g, palette, ps, cs[0]) + SumQuads(g, palette, ps, cs[1..])
  }

  /** Adding a block to ps adds its quads to the sum exactly when its colour
      is listed (once) in cs. */
  lemma {:induction false} SumQuadsStep(g: Grid, palette: seq<Rgb>, ps: seq<Vec3>, cs: seq<Rgb>)
    requires PaletteCovers(g, palette) && InGrid(g, ps) && ps != [] && Distinct(cs)
    ensures var last := ps[|ps| - 1];
      SumQuads(g, palette, ps, cs) == SumQuads(g, palette, ps[..|ps| - 1], cs) +
        (if palette[g[last]] in cs then 6 - CountSolid(g, last, NeighbourSides) else 0)
  {
    if cs != [] {
      DistinctTail(cs);
      SumQuadsStep(g, palette, ps, cs[1..]);
    }
  }

  lemma DistinctTail(cs: seq<Rgb>)
    requires cs != [] && Distinct(cs)
    ensures Distinct(cs[1..]) && cs[0] !in cs[1..]
  {
    forall j | 0 <= j < |cs| - 1 ensures cs[1..][j] != cs[0] {
      assert cs[1..][j] == cs[j + 1];
    }
  }

  /** The sets partition the quads: counting each colour's quads once, over
      colours that cover every block, gives all quads of the blocks. */
  lemma {:induction false} ColourQuadsPartition(g: Grid, palette: seq<Rgb>, ps: seq<Vec3>, cs: seq<Rgb>)
    requires PaletteCovers(g, palette) && InGrid(g, ps) && Distinct(cs)
    requires forall i :: 0 <= i < |ps| ==> palette[g[ps[i]]] in cs
    ensures SumQuads(g, palette, ps, cs) == QuadTotal(g, ps)
  {
    if ps == [] {
      SumQuadsEmpty(g, palette, cs);
    } else {
      var pre := ps[..|ps| - 1];
      assert forall i :: 0 <= i < |pre| ==> pre[i] == ps[i];
      ColourQuadsPartition(g, palette, pre, cs);
      SumQuadsStep(g, palette, ps, cs);
    }
  }

  lemma {:induction false} SumQuadsEmpty(g: Grid, palette: seq<Rgb>, cs: seq<Rgb>)
    requires PaletteCovers(g, palette)
    ensures SumQuads(g, palette, [], cs) == 0
  {
    if cs != [] {
      SumQuadsEmpty(g, palette, cs[1..]);
    }
  }

  /** Summed over the grid's colours, each listed once, the quads of the
      colour sets add up to every quad of the grid. */
  lemma GridColoursPartition(g: Grid, palette: seq<Rgb>, order: seq<Vec3>, cs: seq<Rgb>)
    requires PaletteCovers(g, palette) && IterationOrder(g, order)
    requires Distinct(cs) && forall c :: c in cs <==> c in GridColours(g, palette)
    ensures SumQuads(g, palette, order, cs) == QuadTotal(g, order)
  {
    forall i | 0 <= i < |order| ensures palette[g[order[i]]] in cs {
      assert order[i] in g;
    }
    ColourQuadsPartition(g, palette, order, cs);
  }

  /** Every normal in the buffer is one of the six axis normals. */
  predicate NormalsCanonical(ns: seq<Vec3>) {
    forall i :: 0 <= i < |ns| ==> ns[i] in CanonicalNormals
  }

  lemma CanonicalAppend(ns: seq<Vec3>, n: Vec3)
    requires NormalsCanonical(ns) && n in CanonicalNormals
    ensures NormalsCanonical(ns + [n])
  {
  }

  lemma QuadOfCanonical(lo: Vec3, side: Side)
    ensures QuadOf(lo, side).normal in CanonicalNormals
  {
    NormalIsSwappedOffset(side);
  }

  /** The entries add_quad records for a run of quads whose first vertex is base. */
  function RunEntries(qs: seq<Quad>, base: int): (r: seq<Entry>)
    ensures |r| == 6 * |qs|
  {
    if qs == [] then [] else QuadEntries(base, qs[0]) + RunEntries(qs[1..], base + 4)
  }

  lemma {:induction false} RunEntriesAppend(a: seq<Quad>, b: seq<Quad>, base: int)
    ensures RunEntries(a + b, base) == RunEntries(a, base) + RunEntries(b, base + 4 * |a|)
  {
    if a == [] {
      assert a + b == b;
    } else {
      assert (a + b)[0] == a[0] && (a + b)[1..] == a[1..] + b;
      RunEntriesAppend(a[1..], b, base + 4);
    }
  }

  /** Entry k of quad j of a run: corner TriangleCorners[k] of that quad's
      vertices, with that quad's normal. */
  lemma {:induction false} RunEntriesAt(qs: seq<Quad>, base: int, j: nat, k: nat)
    requires j < |qs| && k < 6
    ensures RunEntries(qs, base)[6 * j + k] == Entry(base + 4 * j + TriangleCorners[k], qs[j].normal)
  {
    if j > 0 {
      RunEntriesAt(qs[1..], base + 4, j - 1, k);
    }
  }

  /** One more quad after the run `done`: the vertices and the entries both
      extend by that quad's. */
  lemma FaceStep(vs: seq<int>, es: seq<Entry>, done: seq<Quad>, q: Quad)
    requires |vs| % 3 == 0
    ensures |vs + QuadsScalars(done)| / 3 == |vs| / 3 + 4 * |done|
    ensures (vs + QuadsScalars(done)) + Scalars(q) == vs + QuadsScalars(done + [q])
    ensures (es + RunEntries(done, |vs| / 3)) + QuadEntries(|vs| / 3 + 4 * |done|, q) ==
            es + RunEntries(done + [q], |vs| / 3)
  {
    var n := |vs| / 3;
    assert |vs + QuadsScalars(done)| == 3 * (n + 4 * |done|);
    ScalarsStep(done, q);
    EntriesStep(done, q, n);
    AppendAssoc(vs, QuadsScalars(done), Scalars(q));
    AppendAssoc(es, RunEntries(done, n), QuadEntries(n + 4 * |done|, q));
  }

  /** Concatenation is associative. */
  lemma AppendAssoc<T>(a: seq<T>, b: seq<T>, c: seq<T>)
    ensures (a + b) + c == a + (b + c)
  {
  }

  lemma ScalarsStep(done: seq<Quad>, q: Quad)
    ensures QuadsScalars(done + [q]) == QuadsScalars(done) + Scalars(q)
  {
    QuadsScalarsAppend(done, [q]);
    assert QuadsScalars([q]) == Scalars(q) + QuadsScalars([]);
  }

  lemma EntriesStep(done: seq<Quad>, q: Quad, base: int)
    ensures RunEntries(done + [q], base) == RunEntries(done, base) + QuadEntries(base + 4 * |done|, q)
  {
    RunEntriesAppend(done, [q], base);
    assert RunEntries([q], base + 4 * |done|) == QuadEntries(base + 4 * |done|, q) + RunEntries([], base + 4 * |done| + 4);
  }

  /** The normal list after add_quad meets the normal n: n is appended
      unless the list holds it already (tools/convert.py:52-55). */
  function AddNormal(ns: seq<Vec3>, n: Vec3): seq<Vec3> {
    if n in ns then ns else ns + [n]
  }

  /** The normal list after a run of quads, each quad's normal added in turn. */
  function RunNormals(ns: seq<Vec3>, qs: seq<Quad>): seq<Vec3> {
    if qs == [] then ns else AddNormal(RunNormals(ns, qs[..|qs| - 1]), qs[|qs| - 1].normal)
  }

  /** The shared normal list once the loop has visited the blocks ps in order:
      the normals of their quads, each at its first occurrence. */
  function MeshNormals(g: Grid, offset: Vec3, ps: seq<Vec3>): seq<Vec3> {
    if ps == [] then []
    else RunNormals(MeshNormals(g, offset, ps[..|ps| - 1]), BlockQuads(g, offset, ps[|ps| - 1]))
  }

  /** A run of quads keeps the old normals as a prefix, adds no duplicate, and
      adds exactly the normals the run's quads carry that were missing. */
  lemma {:induction false} RunNormalsSpec(ns: seq<Vec3>, qs: seq<Quad>)
    requires Distinct(ns)
    ensures ns <= RunNormals(ns, qs) && Distinct(RunNormals(ns, qs))
    ensures forall n :: n in RunNormals(ns, qs) <==> n in ns || Carries(qs, n)
  {
    if qs != [] {
      var pre := qs[..|qs| - 1];
      RunNormalsSpec(ns, pre);
      var r := RunNormals(ns, pre);
      forall n ensures n in RunNormals(ns, qs) <==> n in ns || Carries(qs, n) {
        if Carries(pre, n) {
          var j :| 0 <= j < |pre| && pre[j].normal == n;
          assert qs[j].normal == n;
        }
        if Carries(qs, n) {
          var j :| 0 <= j < |qs| && qs[j].normal == n;
          if j < |pre| {
            assert pre[j].normal == n;
          }
        }
      }
    }
  }

  /** Some quad of some block among ps carries the normal n. */
  predicate Emitted(g: Grid, offset: Vec3, ps: seq<Vec3>, n: Vec3) {
    exists i, j :: 0 <= i < |ps| && 0 <= j < |BlockQuads(g, offset, ps[i])| && BlockQuads(g, offset, ps[i])[j].normal == n
  }

  /** Some quad of the run qs carries the normal n. */
  predicate Carries(qs: seq<Quad>, n: Vec3) {
    exists j :: 0 <= j < |qs| && qs[j].normal == n
  }

  /** A normal emitted by ps + [p] comes from ps or from p's own quads. */
  lemma EmittedStep(g: Grid, offset: Vec3, ps: seq<Vec3>, p: Vec3, n: Vec3)
    ensures Emitted(g, offset, ps + [p], n) <==> Emitted(g, offset, ps, n) || Carries(BlockQuads(g, offset, p), n)
  {
    var ps' := ps + [p];
    if Emitted(g, offset, ps, n) {
      var i, j :| 0 <= i < |ps| && 0 <= j < |BlockQuads(g, offset, ps[i])| && BlockQuads(g, offset, ps[i])[j].normal == n;
      assert ps'[i] == ps[i];
    }
    if Carries(BlockQuads(g, offset, p), n) {
      var j :| 0 <= j < |BlockQuads(g, offset, p)| && BlockQuads(g, offset, p)[j].normal == n;
      assert ps'[|ps|] == p;
    }
    if Emitted(g, offset, ps', n) {
      var i, j :| 0 <= i < |ps'| && 0 <= j < |BlockQuads(g, offset, ps'[i])| && BlockQuads(g, offset, ps'[i])[j].normal == n;
      if i < |ps| {
        assert ps'[i] == ps[i];
      }
    }
  }

  /** The shared normal list after visiting ps holds no duplicate, and holds a
      normal exactly when some quad of some visited block carries it. */
  lemma {:induction false} MeshNormalsSpec(g: Grid, offset: Vec3, ps: seq<Vec3>)
    ensures Distinct(MeshNormals(g, offset, ps))
    ensures forall n :: n in MeshNormals(g, offset, ps) <==> Emitted(g, offset, ps, n)
  {
    if ps != [] {
      var pre, last := ps[..|ps| - 1], ps[|ps| - 1];
      MeshNormalsSpec(g, offset, pre);
      var qs := BlockQuads(g, offset, last);
      RunNormalsSpec(MeshNormals(g, offset, pre), qs);
      assert pre + [last] == ps;
      forall n ensures n in MeshNormals(g, offset, ps) <==> Emitted(g, offset, ps, n) {
        EmittedStep(g, offset, pre, last, n);
      }
    }
  }

  /** Visiting block p adds its quads' normals to the list. */
  lemma MeshNormalsStep(g: Grid, offset: Vec3, ps: seq<Vec3>, p: Vec3)
    ensures MeshNormals(g, offset, ps + [p]) == RunNormals(MeshNormals(g, offset, ps), BlockQuads(g, offset, p))
  {
    AppendPrefix(ps, p);
  }

  /** One more quad after the run `done` adds its normal to the list. */
  lemma NormalsStep(ns: seq<Vec3>, done: seq<Quad>, q: Quad)
    ensures RunNormals(ns, done + [q]) == AddNormal(RunNormals(ns, done), q.normal)
  {
    AppendPrefix(done, q);
  }

  /** add_quad for a quad with an axis normal: the normal buffer stays
      axis-only, the old normals stay a prefix, and the new index pairs read
      back as the quad's six entries. */
  method AddAxisQuad(s: MaterialSet, q: Quad, ghost es: seq<Entry>)
    requires s.Valid() && NormalsCanonical(s.shared.normals) && q.normal in CanonicalNormals
    requires Resolves(s.indices, s.shared.normals, es)
    modifies s, s.shared
    ensures s.Valid() && NormalsCanonical(s.shared.normals)
    ensures s.shared.vertices == old(s.shared.vertices) + Scalars(q)
    ensures s.shared.normals == AddNormal(old(s.shared.normals), q.normal)
    ensures old(s.shared.normals) <= s.shared.normals && q.normal in s.shared.normals
    ensures s.indices == old(s.indices) + QuadIndices(|old(s.shared.vertices)| / 3, FirstIndex(s.shared.normals, q.normal))
    ensures Resolves(s.indices, s.shared.normals, es + QuadEntries(|old(s.shared.vertices)| / 3, q))
  {
    ghost var ix, ns := s.indices, s.shared.normals;
    CanonicalAppend(s.shared.normals, q.normal);
    s.AddQuad(q);
    ResolvesGrow(ix, ns, s.shared.normals, es);
    ResolvesAppendQuad(ix, s.shared.normals, es, |old(s.shared.vertices)| / 3, FirstIndex(s.shared.normals, q.normal), q);
  }

  /** One neighbour test and the add_quad call it guards, after the block's
      earlier quads `done` were appended to the vertices vs and the entries es. */
  method EmitFace(s: MaterialSet, g: Grid, p: Vec3, lo: Vec3, side: Side,
                  ghost vs: seq<int>, ghost ns: seq<Vec3>, ghost es: seq<Entry>, ghost done: seq<Quad>)
    requires s.Valid() && NormalsCanonical(s.shared.normals) && |vs| % 3 == 0
    requires s.shared.vertices == vs + QuadsScalars(done) && s.shared.normals == RunNormals(ns, done)
    requires Resolves(s.indices, s.shared.normals, es + RunEntries(done, |vs| / 3))
    modifies s, s.shared
    ensures s.Valid() && NormalsCanonical(s.shared.normals)
    ensures s.shared.vertices == vs + QuadsScalars(done + FaceIf(g, p, lo, side))
    ensures s.shared.normals == RunNormals(ns, done + FaceIf(g, p, lo, side))
    ensures Resolves(s.indices, s.shared.normals, es + RunEntries(done + FaceIf(g, p, lo, side), |vs| / 3))
    ensures old(s.shared.normals) <= s.shared.normals && old(s.indices) <= s.indices
  {
    if Plus(p, Offset(side)) !in g {
      var q := QuadOf(lo, side);
      QuadOfCanonical(lo, side);
      FaceStep(vs, es, done, q);
      NormalsStep(ns, done, q);
      AddAxisQuad(s, q, es + RunEntries(done, |vs| / 3));
    } else {
      assert done + FaceIf(g, p, lo, side) == done;
    }
  }

  /** The six neighbour tests of one block, in the source's order
      (tools/convert.py:131-177): the block's faces are appended to the
      vertices, and their entries to the set. */
  method EmitBlock(s: MaterialSet, g: Grid, p: Vec3, lo: Vec3, ghost es: seq<Entry>)
    requires s.Valid() && NormalsCanonical(s.shared.normals) && Resolves(s.indices, s.shared.normals, es)
    modifies s, s.shared
    ensures s.Valid() && NormalsCanonical(s.shared.normals)
    ensures s.shared.vertices == old(s.shared.vertices) + QuadsScalars(Faces(g, p, lo))
    ensures s.shared.normals == RunNormals(old(s.shared.normals), Faces(g, p, lo))
    ensures Resolves(s.indices, s.shared.normals, es + RunEntries(Faces(g, p, lo), |old(s.shared.vertices)| / 3))
    ensures old(s.shared.normals) <= s.shared.normals && old(s.indices) <= s.indices
  {
    ghost var vs, ns0, ix0 := s.shared.vertices, s.shared.normals, s.indices;
    ghost var f1, f2, f3 := FaceIf(g, p, lo, ZPlus), FaceIf(g, p, lo, ZMinus), FaceIf(g, p, lo, YPlus);
    ghost var f4, f5 := FaceIf(g, p, lo, YMinus), FaceIf(g, p, lo, XMinus);
    assert vs + QuadsScalars([]) == vs && es + RunEntries([], |vs| / 3) == es;
    EmitFace(s, g, p, lo, ZPlus, vs, ns0, es, []);
    assert [] + f1 == f1;
    ghost var ns1, ix1 := s.shared.normals, s.indices;
    EmitFace(s, g, p, lo, ZMinus, vs, ns0, es, f1);
    ghost var ns2, ix2 := s.shared.normals, s.indices;
    EmitFace(s, g, p, lo, YPlus, vs, ns0, es, f1 + f2);
    ghost var ns3, ix3 := s.shared.normals, s.indices;
    EmitFace(s, g, p, lo, YMinus, vs, ns0, es, f1 + f2 + f3);
    ghost var ns4, ix4 := s.shared.normals, s.indices;
    EmitFace(s, g, p, lo, XMinus, vs, ns0, es, f1 + f2 + f3 + f4);
    ghost var ns5, ix5 := s.shared.normals, s.indices;
    EmitFace(s, g, p, lo, XPlus, vs, ns0, es, f1 + f2 + f3 + f4 + f5);
    PrefixChain(ns0, ns1, ns2, ns3, ns4, ns5, s.shared.normals);
    PrefixChain(ix0, ix1, ix2, ix3, ix4, ix5, s.indices);
    FacesSix(g, p, lo);
  }

  /** Six appends in a row keep the first list a prefix of the last. */
  lemma PrefixChain<T>(a0: seq<T>, a1: seq<T>, a2: seq<T>, a3: seq<T>, a4: seq<T>, a5: seq<T>, a6: seq<T>)
    requires a0 <= a1 && a1 <= a2 && a2 <= a3 && a3 <= a4 && a4 <= a5 && a5 <= a6
    ensures a0 <= a6
  {
  }

  function Solid01(g: Grid, p: Vec3, s: Side): nat {
    if SolidNeighbour(g, p, s) then 1 else 0
  }

  /** CountSolid over the six sides, one term per side. */
  lemma CountSolidSix(g: Grid, p: Vec3)
    ensures CountSolid(g, p, NeighbourSides) ==
      Solid01(g, p, ZPlus) + Solid01(g, p, ZMinus) + Solid01(g, p, YPlus) +
      Solid01(g, p, YMinus) + Solid01(g, p, XMinus) + Solid01(g, p, XPlus)
  {
    var ss := NeighbourSides;
    assert ss[5..][1..] == [];
    assert CountSolid(g, p, ss[5..]) == Solid01(g, p, XPlus);
    assert ss[4..][1..] == ss[5..];
    assert CountSolid(g, p, ss[4..]) == Solid01(g, p, XMinus) + CountSolid(g, p, ss[5..]);
    assert ss[3..][1..] == ss[4..];
    assert CountSolid(g, p, ss[3..]) == Solid01(g, p, YMinus) + CountSolid(g, p, ss[4..]);
    assert ss[2..][1..] == ss[3..];
    assert CountSolid(g, p, ss[2..]) == Solid01(g, p, YPlus) + CountSolid(g, p, ss[3..]);
    assert ss[1..][1..] == ss[2..];
    assert CountSolid(g, p, ss[1..]) == Solid01(g, p, ZMinus) + CountSolid(g, p, ss[2..]);
    assert CountSolid(g, p, ss) == Solid01(g, p, ZPlus) + CountSolid(g, p, ss[1..]);
  }

  /** Two blocks side by side share a face that neither emits: ten quads
      instead of twelve. */
  lemma AdjacentPairQuads(a: Vec3)
    ensures var b := Plus(a, Offset(XPlus));
      QuadTotal(map[a := 0, b := 0], [a, b]) == 10
  {
    var b := Plus(a, Offset(XPlus));
    var g := map[a := 0, b := 0];
    CountSolidSix(g, a);
    CountSolidSix(g, b);
    assert Plus(b, Offset(XMinus)) == a;
    assert CountSolid(g, a, NeighbourSides) == 1 && CountSolid(g, b, NeighbourSides) == 1;
    assert [a, b][..1] == [a] && [a][..0] == [];
    assert QuadTotal(g, [a]) == 5;
    assert QuadTotal(g, [a, b]) == QuadTotal(g, [a]) + 5;
  }

  /** Each block of the grid is visited exactly once (the iteration of f.blocks). */
  predicate IterationOrder(g: Grid, order: seq<Vec3>) {
    InGrid(g, order) && Distinct(order) && forall p :: p in g ==> p in order
  }

  /** What the loop keeps about the buffers and every set, whichever colours
      the sets are for: all sets share buf; the shared vertex list holds the
      quads of the blocks ps in visiting order, and the index list of the set
      of colour c reads back, pair by pair, as ColourEntries: each quad of a
      colour-c block as its two triangles' vertex numbers, each paired with
      the position of that quad's normal in the normal list. */
  ghost predicate Tracked(buf: SharedBuffers, sets: map<Rgb, MaterialSet>, g: Grid,
                          palette: seq<Rgb>, offset: Vec3, ps: seq<Vec3>)
    requires PaletteCovers(g, palette) && InGrid(g, ps)
    reads buf, sets.Values
  {
    buf.Valid() && NormalsCanonical(buf.normals) &&
    buf.vertices == MeshScalars(g, offset, ps) &&
    forall c :: c in sets ==> SetTracked(buf, sets[c], g, palette, offset, ps, c)
  }

  /** The set s is the set of colour c, named after a palette entry of that
      colour, on the shared buffers buf, holding ColourEntries for c. */
  ghost predicate SetTracked(buf: SharedBuffers, s: MaterialSet, g: Grid, palette: seq<Rgb>,
                             offset: Vec3, ps: seq<Vec3>, c: Rgb)
    requires PaletteCovers(g, palette) && InGrid(g, ps)
    reads buf, s
  {
    s.shared == buf && s.color == c && s.postfix < |palette| && palette[s.postfix] == c &&
    Resolves(s.indices, buf.normals, ColourEntries(g, palette, offset, ps, c))
  }

  /** The state of convert_file after visiting the blocks ps: as Tracked, with
      the normal list holding the visited quads' normals at their first
      occurrence, and exactly one set per colour met so far, named after the
      first block of that colour. */
  ghost predicate Visited(buf: SharedBuffers, sets: map<Rgb, MaterialSet>, g: Grid,
                          palette: seq<Rgb>, offset: Vec3, ps: seq<Vec3>)
    requires PaletteCovers(g, palette) && InGrid(g, ps)
    reads buf, sets.Values
  {
    Tracked(buf, sets, g, palette, offset, ps) && buf.normals == MeshNormals(g, offset, ps) &&
    sets.Keys == Colours(g, palette, ps) && Named(sets, g, palette, ps)
  }

  /** The set of each colour met is named after the palette index of the first
      block of that colour, the block that created it. */
  predicate Named(sets: map<Rgb, MaterialSet>, g: Grid, palette: seq<Rgb>, ps: seq<Vec3>)
    requires PaletteCovers(g, palette) && InGrid(g, ps)
  {
    forall c :: c in sets && c in Colours(g, palette, ps) ==> sets[c].postfix == g[FirstBlock(g, palette, ps, c)]
  }

  /** Finding or creating the set of block p's colour keeps every set named
      after the first block of its colour. */
  lemma NamedStep(sets: map<Rgb, MaterialSet>, s: MaterialSet, g: Grid, palette: seq<Rgb>, ps: seq<Vec3>, p: Vec3)
    requires PaletteCovers(g, palette) && InGrid(g, ps) && p in g
    requires Named(sets, g, palette, ps) && sets.Keys == Colours(g, palette, ps)
    requires palette[g[p]] in sets ==> s == sets[palette[g[p]]]
    requires palette[g[p]] !in sets ==> s.postfix == g[p]
    ensures InGrid(g, ps + [p]) && Named(sets[palette[g[p]] := s], g, palette, ps + [p])
  {
    var sets' := sets[palette[g[p]] := s];
    forall c | c in sets' && c in Colours(g, palette, ps + [p])
      ensures InGrid(g, ps + [p]) && sets'[c].postfix == g[FirstBlock(g, palette, ps + [p], c)]
    {
      if c in Colours(g, palette, ps) {
        FirstBlockStep(g, palette, ps, p, c, sets'[c].postfix);
      } else {
        FirstBlockStep(g, palette, ps, p, c, s.postfix);
      }
    }
  }

  /** The try/except around sets[color] (tools/convert.py:123-128): the set of
      the block's colour, created on first use with the block's palette index
      as its name. */
  method SetFor(buf: SharedBuffers, sets: map<Rgb, MaterialSet>, g: Grid, palette: seq<Rgb>,
                offset: Vec3, ghost ps: seq<Vec3>, p: Vec3)
      returns (s: MaterialSet, sets': map<Rgb, MaterialSet>)
    requires PaletteCovers(g, palette) && InGrid(g, ps) && p in g
    requires Visited(buf, sets, g, palette, offset, ps)
    ensures sets' == sets[palette[g[p]] := s]
    ensures palette[g[p]] in sets ==> s == sets[palette[g[p]]]
    ensures palette[g[p]] !in sets ==>
      fresh(s) && s.postfix == g[p] && s.color == palette[g[p]] && s.shared == buf && s.indices == []
    ensures Tracked(buf, sets', g, palette, offset, ps)
    ensures InGrid(g, ps + [p]) && sets'.Keys == Colours(g, palette, ps + [p])
  {
    var color := palette[g[p]];
    if color in sets {
      s := sets[color];
      sets' := sets;
      UpdateSame(sets, color);
    } else {
      s := new MaterialSet(g[p], color, buf);
      sets' := sets[color := s];
      TrackedAdd(buf, sets, g, palette, offset, ps, color, s);
    }
    KeysStep(sets, s, g, palette, ps, p);
  }

  /** Storing again the value a key already has leaves a map unchanged. */
  lemma UpdateSame<K, V>(m: map<K, V>, k: K)
    requires k in m
    ensures m[k := m[k]] == m
  {
  }

  /** Keying the set of block p's colour into sets keeps the keys the colours met. */
  lemma KeysStep(sets: map<Rgb, MaterialSet>, s: MaterialSet, g: Grid, palette: seq<Rgb>, ps: seq<Vec3>, p: Vec3)
    requires PaletteCovers(g, palette) && InGrid(g, ps) && p in g
    requires sets.Keys == Colours(g, palette, ps)
    ensures InGrid(g, ps + [p]) && sets[palette[g[p]] := s].Keys == Colours(g, palette, ps + [p])
  {
    ColoursStep(g, palette, ps, p);
  }

  /** A tracked set satisfies the set invariant of add_quad: its indices come
      in whole quads and name existing vertices and normals. */
  lemma SetValid(buf: SharedBuffers, s: MaterialSet, g: Grid, palette: seq<Rgb>,
                 offset: Vec3, ps: seq<Vec3>, c: Rgb)
    requires PaletteCovers(g, palette) && InGrid(g, ps)
    requires buf.Valid() && buf.vertices == MeshScalars(g, offset, ps)
    requires SetTracked(buf, s, g, palette, offset, ps, c)
    ensures s.Valid()
  {
    var es := ColourEntries(g, palette, offset, ps, c);
    ColourEntriesLength(g, palette, offset, ps, c);
    ColourEntriesBelow(g, palette, offset, ps, c);
    ResolvesValid(s.indices, buf.normals, es, |buf.vertices| / 3);
  }

  /** A new empty set for a colour no visited block has keeps the state tracked. */
  lemma TrackedAdd(buf: SharedBuffers, sets: map<Rgb, MaterialSet>, g: Grid, palette: seq<Rgb>,
                   offset: Vec3, ps: seq<Vec3>, c: Rgb, s: MaterialSet)
    requires PaletteCovers(g, palette) && InGrid(g, ps) && c !in Colours(g, palette, ps)
    requires Tracked(buf, sets, g, palette, offset, ps)
    requires s.shared == buf && s.color == c && s.postfix < |palette| && palette[s.postfix] == c && s.indices == []
    ensures Tracked(buf, sets[c := s], g, palette, offset, ps)
  {
    ColourEntriesLength(g, palette, offset, ps, c);
    assert SetTracked(buf, s, g, palette, offset, ps, c);
  }

  /** The six neighbour tests of block p into the set s of its colour: its
      quads' entries follow that set's earlier ones; the other sets keep
      theirs and only see the shared buffers grow. */
  method EmitInto(buf: SharedBuffers, sets: map<Rgb, MaterialSet>, s: MaterialSet, g: Grid,
                  palette: seq<Rgb>, offset: Vec3, ghost ps: seq<Vec3>, p: Vec3)
    requires PaletteCovers(g, palette) && InGrid(g, ps) && p in g
    requires palette[g[p]] in sets && s == sets[palette[g[p]]]
    requires Tracked(buf, sets, g, palette, offset, ps)
    modifies buf, s
    ensures InGrid(g, ps + [p]) && Tracked(buf, sets, g, palette, offset, ps + [p])
    ensures old(buf.normals) <= buf.normals && buf.normals == RunNormals(old(buf.normals), BlockQuads(g, offset, p))
    ensures forall c :: c in sets && c != palette[g[p]] ==> sets[c].indices == old(sets[c].indices)
  {
    ghost var color := palette[g[p]];
    ghost var ns := buf.normals;
    SetValid(buf, s, g, palette, offset, ps, color);
    var lo := Low(p, offset);
    EmitBlock(s, g, p, lo, ColourEntries(g, palette, offset, ps, color));
    BlockStep(g, palette, offset, ps, p);
    OwnSetTracked(s, buf, g, palette, offset, ps, p);
    forall c | c in sets && c != color
      ensures SetTracked(buf, sets[c], g, palette, offset, ps + [p], c)
    {
      OtherSetTracked(sets[c], old(sets[c].indices), ns, buf, g, palette, offset, ps, p, c);
    }
  }

  /** Visiting block p appends its quads to the vertex list and their entries
      to those of its colour; the other colours' entries stay as they were. */
  lemma BlockStep(g: Grid, palette: seq<Rgb>, offset: Vec3, ps: seq<Vec3>, p: Vec3)
    requires PaletteCovers(g, palette) && InGrid(g, ps) && p in g
    ensures InGrid(g, ps + [p])
    ensures MeshScalars(g, offset, ps + [p]) ==
      MeshScalars(g, offset, ps) + QuadsScalars(Faces(g, p, Low(p, offset)))
    ensures ColourEntries(g, palette, offset, ps + [p], palette[g[p]]) ==
      ColourEntries(g, palette, offset, ps, palette[g[p]]) +
      RunEntries(Faces(g, p, Low(p, offset)), |MeshScalars(g, offset, ps)| / 3)
  {
    AppendPrefix(ps, p);
  }

  /** The set of the visited block's colour, holding its earlier entries
      followed by the block's, holds its colour's entries after the visit. */
  lemma OwnSetTracked(s: MaterialSet, buf: SharedBuffers, g: Grid, palette: seq<Rgb>,
                      offset: Vec3, ps: seq<Vec3>, p: Vec3)
    requires PaletteCovers(g, palette) && InGrid(g, ps) && p in g
    requires s.shared == buf && s.color == palette[g[p]] && s.postfix < |palette| && palette[s.postfix] == s.color
    requires Resolves(s.indices, buf.normals, ColourEntries(g, palette, offset, ps, s.color) +
      RunEntries(Faces(g, p, Low(p, offset)), |MeshScalars(g, offset, ps)| / 3))
    ensures InGrid(g, ps + [p]) && SetTracked(buf, s, g, palette, offset, ps + [p], s.color)
  {
    BlockStep(g, palette, offset, ps, p);
  }

  /** A set of another colour than the visited block keeps its index list,
      which still reads the same entries in the grown buffers. */
  lemma OtherSetTracked(s: MaterialSet, ix: seq<int>, ns: seq<Vec3>, buf: SharedBuffers,
                        g: Grid, palette: seq<Rgb>, offset: Vec3, ps: seq<Vec3>, p: Vec3, c: Rgb)
    requires PaletteCovers(g, palette) && InGrid(g, ps) && p in g && palette[g[p]] != c
    requires s.shared == buf && s.color == c && s.postfix < |palette| && palette[s.postfix] == c
    requires s.indices == ix && Resolves(ix, ns, ColourEntries(g, palette, offset, ps, c)) && ns <= buf.normals
    ensures InGrid(g, ps + [p]) && SetTracked(buf, s, g, palette, offset, ps + [p], c)
  {
    AppendPrefix(ps, p);
    ResolvesGrow(ix, ns, buf.normals, ColourEntries(g, palette, offset, ps, c));
    var es := ColourEntries(g, palette, offset, ps, c);
    assert ColourEntries(g, palette, offset, ps + [p], c) == es + [] == es;
  }

  /** One iteration of the block loop (tools/convert.py:114-177): find or create
      the set of the block's colour, then emit the block's uncovered faces into it. */
  method VisitBlock(buf: SharedBuffers, sets: map<Rgb, MaterialSet>, g: Grid, palette: seq<Rgb>,
                    offset: Vec3, ghost ps: seq<Vec3>, p: Vec3) returns (sets': map<Rgb, MaterialSet>)
    requires PaletteCovers(g, palette) && InGrid(g, ps) && p in g
    requires Visited(buf, sets, g, palette, offset, ps)
    modifies buf, sets.Values
    ensures InGrid(g, ps + [p]) && Visited(buf, sets', g, palette, offset, ps + [p])
    ensures forall o :: o in sets'.Values ==> o in sets.Values || fresh(o)
  {
    var s;
    s, sets' := SetFor(buf, sets, g, palette, offset, ps, p);
    NamedStep(sets, s, g, palette, ps, p);
    EmitInto(buf, sets', s, g, palette, offset, ps, p);
    MeshNormalsStep(g, offset, ps, p);
  }

  /** The colours met grow by the colour of the block visited. */
  lemma ColoursStep(g: Grid, palette: seq<Rgb>, ps: seq<Vec3>, p: Vec3)
    requires PaletteCovers(g, palette) && InGrid(g, ps) && p in g
    ensures InGrid(g, ps + [p])
    ensures Colours(g, palette, ps + [p]) == Colours(g, palette, ps) + {palette[g[p]]}
  {
    AppendPrefix(ps, p);
  }

  /** The block loop of convert_file, visiting the blocks in the given order. */
  method ConvertBlocks(g: Grid, palette: seq<Rgb>, offset: Vec3, order: seq<Vec3>)
    returns (buf: SharedBuffers, sets: map<Rgb, MaterialSet>)
    requires PaletteCovers(g, palette) && IterationOrder(g, order)
    ensures Visited(buf, sets, g, palette, offset, order)
    ensures buf.normals == MeshNormals(g, offset, order)
    ensures forall n :: n in buf.normals <==> Emitted(g, offset, order, n)
    ensures sets.Keys == GridColours(g, palette)
    ensures |buf.vertices| == 12 * QuadTotal(g, order)
    ensures |buf.normals| <= 6
    ensures forall c :: c in sets ==> |sets[c].indices| == 12 * ColourQuads(g, palette, order, c)
  {
    buf := new SharedBuffers();
    VisitedStart(buf, g, palette, offset);
    sets := VisitAll(buf, g, palette, offset, order);
    VisitedAll(buf, sets, g, palette, offset, order);
  }

  /** The loop itself, from empty buffers and no sets. */
  method VisitAll(buf: SharedBuffers, g: Grid, palette: seq<Rgb>, offset: Vec3, order: seq<Vec3>)
    returns (sets: map<Rgb, MaterialSet>)
    requires PaletteCovers(g, palette) && InGrid(g, order)
    requires Visited(buf, map[], g, palette, offset, [])
    modifies buf
    ensures Visited(buf, sets, g, palette, offset, order)
  {
    sets := map[];
    var i := 0;
    while i < |order|
      invariant 0 <= i <= |order| && InGrid(g, order[..i])
      invariant forall o :: o in sets.Values ==> fresh(o)
      invariant Visited(buf, sets, g, palette, offset, order[..i])
    {
      PrefixStep(order, i);
      sets := VisitBlock(buf, sets, g, palette, offset, order[..i], order[i]);
      i := i + 1;
    }
    PrefixAll(order);
  }

  /** Dropping the last element of xs + [x] gives back xs. */
  lemma AppendPrefix<T>(xs: seq<T>, x: T)
    ensures (xs + [x])[..|xs|] == xs
  {
  }

  /** Taking one more element of a sequence appends it to the prefix. */
  lemma PrefixStep<T>(xs: seq<T>, i: int)
    requires 0 <= i < |xs|
    ensures xs[..i + 1] == xs[..i] + [xs[i]]
  {
  }

  /** The prefix of a sequence as long as the sequence is the sequence. */
  lemma PrefixAll<T>(xs: seq<T>)
    ensures xs[..|xs|] == xs
  {
  }

  /** Before the first block: empty buffers and no sets. */
  lemma VisitedStart(buf: SharedBuffers, g: Grid, palette: seq<Rgb>, offset: Vec3)
    requires PaletteCovers(g, palette)
    requires buf.vertices == [] && buf.normals == []
    ensures Visited(buf, map[], g, palette, offset, [])
  {
  }

  /** After the whole loop: a set per colour of the grid, four vertices per
      emitted quad, exactly the emitted normals (at most the six axis normals)
      in the normal list, and
      twelve indices per quad of its colour in each set. */
  lemma VisitedAll(buf: SharedBuffers, sets: map<Rgb, MaterialSet>, g: Grid,
                   palette: seq<Rgb>, offset: Vec3, order: seq<Vec3>)
    requires PaletteCovers(g, palette) && IterationOrder(g, order)
    requires Visited(buf, sets, g, palette, offset, order)
    ensures sets.Keys == GridColours(g, palette)
    ensures |buf.vertices| == 12 * QuadTotal(g, order)
    ensures |buf.normals| <= 6
    ensures forall n :: n in buf.normals <==> Emitted(g, offset, order, n)
    ensures forall c :: c in sets ==> |sets[c].indices| == 12 * ColourQuads(g, palette, order, c)
  {
    MeshNormalsSpec(g, offset, order);
    ColoursOfAll(g, palette, order);
    MeshScalarsLength(g, offset, order);
    CanonicalNormalsCount();
    DistinctBound(buf.normals, CanonicalNormals);
    forall c | c in sets ensures |sets[c].indices| == 12 * ColourQuads(g, palette, order, c) {
      ColourEntriesLength(g, palette, offset, order, c);
      ResolvesLength(sets[c].indices, buf.normals, ColourEntries(g, palette, offset, order, c));
    }
  }
}
