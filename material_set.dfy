/** The per-colour batches of tools/convert.py.  Every MaterialSet of one
    conversion appends to the same vertex and normal lists (they are handed the
    very list objects at construction) and keeps its own list of triangle
    indices into them. */
module MaterialSets {
  import opened MeshGeometry

  /** A palette colour; sets are keyed by exact equality of the three channels. */
  datatype Rgb = Rgb(r: int, g: int, b: int)

  predicate Distinct<T(==)>(s: seq<T>) {
    forall i, j :: 0 <= i < j < |s| ==> s[i] != s[j]
  }

  /** Python's `list.index(x)`: the position of the first occurrence of x. */
  function FirstIndex<T(==)>(s: seq<T>, x: T): (i: nat)
    requires x in s
    ensures i < |s| && s[i] == x
    ensures forall j :: 0 <= j < i ==> s[j] != x
  {
    if s[0] == x then 0 else 1 + FirstIndex(s[1..], x)
  }

  /** In a list without duplicates the only occurrence is the first one. */
  lemma FirstIndexOfDistinct<T>(s: seq<T>, i: nat)
    requires Distinct(s) && i < |s|
    ensures FirstIndex(s, s[i]) == i
  {
  }

  /** The twelve scalars add_quad appends for a quad: x, y, z of each corner. */
  function Scalars(q: Quad): (r: seq<int>)
    ensures |r| == 12
  {
    [q.a.x, q.a.y, q.a.z, q.b.x, q.b.y, q.b.z, q.c.x, q.c.y, q.c.z, q.d.x, q.d.y, q.d.z]
  }

  /** Vertex number i of a flat x, y, z buffer, as the output reads it back. */
  function VertexAt(vs: seq<int>, i: nat): Vec3
    requires 3 * i + 2 < |vs|
  {
    Vec3(vs[3 * i], vs[3 * i + 1], vs[3 * i + 2])
  }

  /** Reading vertex |pre| / 3 + t back after an append gives corner t of the quad. */
  lemma NewVertex(pre: seq<int>, q: Quad, t: nat)
    requires |pre| % 3 == 0 && t < 4
    ensures 3 * (|pre| / 3 + t) + 2 < |pre + Scalars(q)|
    ensures VertexAt(pre + Scalars(q), |pre| / 3 + t) == Corner(q, t)
  {
    assert 3 * (|pre| / 3 + t) == |pre| + 3 * t;
  }

  /** Reading the buffer back after an append gives the quad's corners as the
      four new vertices and leaves every earlier vertex as it was. */
  lemma ScalarsDecode(pre: seq<int>, q: Quad)
    requires |pre| % 3 == 0
    ensures |pre + Scalars(q)| == |pre| + 12
    ensures forall k :: 0 <= k < 4 ==> VertexAt(pre + Scalars(q), |pre| / 3 + k) == Corner(q, k)
    ensures forall i :: 0 <= i < |pre| / 3 ==> VertexAt(pre + Scalars(q), i) == VertexAt(pre, i)
  {
    forall k | 0 <= k < 4
      ensures VertexAt(pre + Scalars(q), |pre| / 3 + k) == Corner(q, k)
    {
      NewVertex(pre, q, k);
    }
  }

  /** The corners add_quad's six index pairs refer to: triangles (a, b, c) and (c, d, a). */
  const TriangleCorners: seq<nat> := [0, 1, 2, 2, 3, 0]

  /** The twelve index entries add_quad appends: six (vertex, normal) pairs. */
  function QuadIndices(base: int, normalIndex: int): (r: seq<int>)
    ensures |r| == 12
    ensures forall k :: 0 <= k < 6 ==> r[2 * k] == base + TriangleCorners[k] && r[2 * k + 1] == normalIndex
  {
    [base, normalIndex, base + 1, normalIndex, base + 2, normalIndex,
     base + 2, normalIndex, base + 3, normalIndex, base, normalIndex]
  }

  /** Vertex part k (of six) of a quad's index entries, read back through
      the grown vertex buffer, is corner TriangleCorners[k] of the quad. */
  lemma AppendedVertex(vs: seq<int>, ix: seq<int>, q: Quad, n: int, k: nat)
    requires |vs| % 3 == 0 && k < 6
    ensures var vs', ix' := vs + Scalars(q), ix + QuadIndices(|vs| / 3, n);
      3 * ix'[|ix| + 2 * k] + 2 < |vs'| && VertexAt(vs', ix'[|ix| + 2 * k]) == Corner(q, TriangleCorners[k])
  {
    QuadIndicesAt(ix, |vs| / 3, n, k);
    NewVertex(vs, q, TriangleCorners[k]);
  }

  /** What add_quad's new index entries mean: read back through the grown
      buffers, vertex part k (of six) is corner TriangleCorners[k] of the quad,
      so the two triangles are (a, b, c) and (c, d, a), and normal part k is
      the quad's normal. */
  lemma AppendedQuadRefersToCorners(vs: seq<int>, ns: seq<Vec3>, ix: seq<int>, q: Quad, k: nat)
    requires |vs| % 3 == 0 && q.normal in ns && k < 6
    ensures var vs', ix' := vs + Scalars(q), ix + QuadIndices(|vs| / 3, FirstIndex(ns, q.normal));
      3 * ix'[|ix| + 2 * k] + 2 < |vs'| &&
      VertexAt(vs', ix'[|ix| + 2 * k]) == Corner(q, TriangleCorners[k]) &&
      0 <= ix'[|ix| + 2 * k + 1] < |ns| && ns[ix'[|ix| + 2 * k + 1]] == q.normal
  {
    AppendedVertex(vs, ix, q, FirstIndex(ns, q.normal), k);
    QuadIndicesAt(ix, |vs| / 3, FirstIndex(ns, q.normal), k);
  }

  /** Entry pair k of an appended quad, read through the whole index list. */
  lemma QuadIndicesAt(ix: seq<int>, base: int, normalIndex: int, k: nat)
    requires k < 6
    ensures TriangleCorners[k] < 4
    ensures (ix + QuadIndices(base, normalIndex))[|ix| + 2 * k] == base + TriangleCorners[k]
    ensures (ix + QuadIndices(base, normalIndex))[|ix| + 2 * k + 1] == normalIndex
  {
    assert k == 0 || k == 1 || k == 2 || k == 3 || k == 4 || k == 5;
  }

  /** Index entries come in whole quads of (vertex, normal) pairs; every vertex
      part is below nv and every normal part below nn. */
  predicate IndicesValid(ix: seq<int>, nv: int, nn: int) {
    |ix| % 12 == 0 &&
    forall m :: 0 <= m < |ix| / 2 ==> 0 <= ix[2 * m] < nv && 0 <= ix[2 * m + 1] < nn
  }

  /** Appending one quad's entries whose parts are in range keeps the list valid. */
  lemma QuadIndicesValid(ix: seq<int>, base: int, normalIndex: int, nv: int, nn: int)
    requires IndicesValid(ix, nv, nn)
    requires 0 <= base && base + 4 <= nv && 0 <= normalIndex < nn
    ensures IndicesValid(ix + QuadIndices(base, normalIndex), nv, nn)
  {
    var r := ix + QuadIndices(base, normalIndex);
    assert |r| / 2 == |ix| / 2 + 6 && 2 * (|ix| / 2) == |ix|;
    forall m | 0 <= m < |r| / 2
      ensures 0 <= r[2 * m] < nv && 0 <= r[2 * m + 1] < nn
    {
      if m >= |ix| / 2 {
        var j := m - |ix| / 2;
        assert r[2 * m] == QuadIndices(base, normalIndex)[2 * j];
        assert r[2 * m + 1] == QuadIndices(base, normalIndex)[2 * j + 1];
      }
    }
  }

  /** Only growth of the buffers: indices recorded earlier stay valid. */
  lemma IndicesValidGrow(ix: seq<int>, nv: int, nn: int, nv': int, nn': int)
    requires IndicesValid(ix, nv, nn) && nv <= nv' && nn <= nn'
    ensures IndicesValid(ix, nv', nn')
  {
  }

  /** One (vertex, normal) pair of an index list, with the normal read back
      as a vector rather than as a position in the normal list. */
  datatype Entry = Entry(vertex: int, normal: Vec3)

  /** The six entries add_quad records for a quad whose first vertex is base:
      triangles (a, b, c) and (c, d, a), each corner with the quad's normal. */
  function QuadEntries(base: int, q: Quad): (r: seq<Entry>)
    ensures |r| == 6
    ensures forall k :: 0 <= k < 6 ==> r[k] == Entry(base + TriangleCorners[k], q.normal)
  {
    var n := q.normal;
    [Entry(base, n), Entry(base + 1, n), Entry(base + 2, n), Entry(base + 2, n), Entry(base + 3, n), Entry(base, n)]
  }

  /** The index list ix, read pair by pair through the normal list ns, is the
      entry list es: each vertex part is the entry's vertex, and each normal
      part is a position of ns holding the entry's normal. */
  predicate Resolves(ix: seq<int>, ns: seq<Vec3>, es: seq<Entry>)
    decreases es
  {
    if es == [] then ix == []
    else
      |ix| >= 2 && ix[0] == es[0].vertex && 0 <= ix[1] < |ns| && ns[ix[1]] == es[0].normal &&
      Resolves(ix[2..], ns, es[1..])
  }

  /** Two indices per entry. */
  lemma {:induction false} ResolvesLength(ix: seq<int>, ns: seq<Vec3>, es: seq<Entry>)
    requires Resolves(ix, ns, es)
    ensures |ix| == 2 * |es|
  {
    if es != [] {
      ResolvesLength(ix[2..], ns, es[1..]);
    }
  }

  /** Index pairs that read as whole quads' entries with vertices below nv
      are in range of both buffers. */
  lemma ResolvesValid(ix: seq<int>, ns: seq<Vec3>, es: seq<Entry>, nv: int)
    requires Resolves(ix, ns, es) && |es| % 6 == 0
    requires forall m :: 0 <= m < |es| ==> 0 <= es[m].vertex < nv
    ensures IndicesValid(ix, nv, |ns|)
  {
    ResolvesLength(ix, ns, es);
    forall m | 0 <= m < |ix| / 2
      ensures 0 <= ix[2 * m] < nv && 0 <= ix[2 * m + 1] < |ns|
    {
      ResolvesAt(ix, ns, es, m);
    }
  }

  /** Pair m of the index list: its vertex part, and the normal its normal part names. */
  lemma {:induction false} ResolvesAt(ix: seq<int>, ns: seq<Vec3>, es: seq<Entry>, m: nat)
    requires Resolves(ix, ns, es) && m < |es|
    ensures 2 * m + 1 < |ix|
    ensures ix[2 * m] == es[m].vertex && 0 <= ix[2 * m + 1] < |ns| && ns[ix[2 * m + 1]] == es[m].normal
  {
    if m > 0 {
      ResolvesAt(ix[2..], ns, es[1..], m - 1);
      assert ix[2..][2 * (m - 1)] == ix[2 * m] && ix[2..][2 * (m - 1) + 1] == ix[2 * m + 1];
    }
  }

  /** Over a list without duplicate normals the entries fix the index list:
      the normal part of each pair is the only position holding its normal. */
  lemma {:induction false} ResolvesUnique(ix: seq<int>, ix': seq<int>, ns: seq<Vec3>, es: seq<Entry>)
    requires Distinct(ns) && Resolves(ix, ns, es) && Resolves(ix', ns, es)
    ensures ix == ix'
  {
    if es != [] {
      ResolvesUnique(ix[2..], ix'[2..], ns, es[1..]);
      assert ix == [ix[0], ix[1]] + ix[2..] && ix' == [ix'[0], ix'[1]] + ix'[2..];
    }
  }

  /** Appending to the normal list never changes what recorded entries mean. */
  lemma {:induction false} ResolvesGrow(ix: seq<int>, ns: seq<Vec3>, ns': seq<Vec3>, es: seq<Entry>)
    requires Resolves(ix, ns, es) && ns <= ns'
    ensures Resolves(ix, ns', es)
  {
    if es != [] {
      ResolvesGrow(ix[2..], ns, ns', es[1..]);
      assert ns'[ix[1]] == ns[ix[1]];
    }
  }

  /** Index lists read one after the other read as their entries one after the other. */
  lemma {:induction false} ResolvesAppend(ix: seq<int>, ix': seq<int>, ns: seq<Vec3>, es: seq<Entry>, es': seq<Entry>)
    requires Resolves(ix, ns, es) && Resolves(ix', ns, es')
    ensures Resolves(ix + ix', ns, es + es')
  {
    if es == [] {
      assert ix + ix' == ix' && es + es' == es';
    } else {
      ResolvesAppend(ix[2..], ix', ns, es[1..], es');
      assert (ix + ix')[2..] == ix[2..] + ix' && (es + es')[1..] == es[1..] + es';
    }
  }

  /** The twelve indices of one quad read as that quad's six entries, when
      the normal part names a position holding the quad's normal. */
  lemma QuadResolves(base: int, n: int, ns: seq<Vec3>, q: Quad)
    requires 0 <= n < |ns| && ns[n] == q.normal
    ensures Resolves(QuadIndices(base, n), ns, QuadEntries(base, q))
  {
    var ix, es := QuadIndices(base, n), QuadEntries(base, q);
    assert Resolves(ix[12..], ns, es[6..]);
    assert ix[10..][2..] == ix[12..] && es[5..][1..] == es[6..];
    assert Resolves(ix[10..], ns, es[5..]);
    assert ix[8..][2..] == ix[10..] && es[4..][1..] == es[5..];
    assert Resolves(ix[8..], ns, es[4..]);
    assert ix[6..][2..] == ix[8..] && es[3..][1..] == es[4..];
    assert Resolves(ix[6..], ns, es[3..]);
    assert ix[4..][2..] == ix[6..] && es[2..][1..] == es[3..];
    assert Resolves(ix[4..], ns, es[2..]);
    assert ix[2..][2..] == ix[4..] && es[1..][1..] == es[2..];
    assert Resolves(ix[2..], ns, es[1..]);
  }

  /** One quad appended by add_quad extends the entries by that quad's six. */
  lemma ResolvesAppendQuad(ix: seq<int>, ns: seq<Vec3>, es: seq<Entry>, base: int, n: int, q: Quad)
    requires Resolves(ix, ns, es) && 0 <= n < |ns| && ns[n] == q.normal
    ensures Resolves(ix + QuadIndices(base, n), ns, es + QuadEntries(base, q))
  {
    QuadResolves(base, n, ns, q);
    ResolvesAppend(ix, QuadIndices(base, n), ns, es, QuadEntries(base, q));
  }

  /** The `vertices` and `normals` lists of convert_file, aliased by every set. */
  class SharedBuffers {
    var vertices: seq<int>
    var normals: seq<Vec3>

    ghost predicate Valid()
      reads this
    {
      |vertices| % 3 == 0 && Distinct(normals)
    }

    constructor ()
      ensures Valid() && vertices == [] && normals == []
    {
      vertices := [];
      normals := [];
    }
  }

  class MaterialSet {
    /** The palette index of the block that created the set; names its material. */
    const postfix: nat
    const color: Rgb
    const shared: SharedBuffers
    var indices: seq<int>

    ghost predicate Valid()
      reads this, shared
    {
      shared.Valid() && IndicesValid(indices, |shared.vertices| / 3, |shared.normals|)
    }

    /** MaterialSet.__init__ without its Collada effect and material objects. */
    constructor (name: nat, color: Rgb, shared: SharedBuffers)
      requires shared.Valid()
      ensures Valid()
      ensures postfix == name && this.color == color && this.shared == shared && indices == []
    {
      postfix := name;
      this.color := color;
      this.shared := shared;
      indices := [];
    }

    /** add_quad: four fresh vertices, the normal reused if present and appended
        otherwise, and two triangles over the new vertices paired with it. */
    method AddQuad(q: Quad)
      requires Valid()
      modifies this, shared
      ensures Valid()
      ensures shared.vertices == old(shared.vertices) + Scalars(q)
      ensures shared.normals ==
        if q.normal in old(shared.normals) then old(shared.normals) else old(shared.normals) + [q.normal]
      ensures indices == old(indices) + QuadIndices(|old(shared.vertices)| / 3, FirstIndex(shared.normals, q.normal))
    {
      var vertIndex := |shared.vertices| / 3;
      var normalIndex: nat;
      if q.normal in shared.normals {
        normalIndex := FirstIndex(shared.normals, q.normal);
      } else {
        shared.normals := shared.normals + [q.normal];
        normalIndex := |shared.normals| - 1;
        FirstIndexOfDistinct(shared.normals, normalIndex);
      }
      ScalarsDecode(shared.vertices, q);
      shared.vertices := shared.vertices + Scalars(q);
      assert |shared.vertices| / 3 == vertIndex + 4;
      IndicesValidGrow(indices, vertIndex, old(|shared.normals|), vertIndex + 4, |shared.normals|);
      QuadIndicesValid(indices, vertIndex, normalIndex, vertIndex + 4, |shared.normals|);
      indices := indices + QuadIndices(vertIndex, normalIndex);
    }
  }

  /** A list without duplicates drawn from a set is no longer than the set. */
  lemma {:induction false} DistinctBound<T>(s: seq<T>, pool: set<T>)
    requires Distinct(s)
    requires forall i :: 0 <= i < |s| ==> s[i] in pool
    ensures |s| <= |pool|
  {
    if s != [] {
      var last := s[|s| - 1];
      DistinctBound(s[..|s| - 1], pool - {last});
    }
  }
}
