/** The voxel metadata the Unity runtime loads for each model
    (class VoxelData, unity3d/AnimateScript.cs:49-108): the grid dimensions,
    one palette byte per cell, and the material each palette entry resolved to. */
module VoxelMeta {
  import opened Wrappers

  newtype byte = x: int | 0 <= x < 256

  /** The palette byte of an empty cell. */
  const Empty: byte := 255

  /** An array read either succeeds or raises IndexOutOfRangeException. */
  datatype Outcome<T> = Ok(value: T) | IndexOutOfRange

  /** A material of the renderer, identified by its position in the renderer's list. */
  type MaterialId = nat

  /** The fields of VoxelData that the queries read; the offsets are loaded
      but never used by them.  A palette entry is None when no material of the
      renderer had that colour. */
  datatype VoxelData = VoxelData(xSize: nat, ySize: nat, zSize: nat,
                                 data: seq<byte>, palette: seq<Option<MaterialId>>)

  /** What the constructor leaves: one byte per cell and a 256-entry palette. */
  predicate Valid(v: VoxelData) {
    |v.data| == v.xSize * v.ySize * v.zSize && |v.palette| == 256
  }

  /** The cell layout: y fastest, then z, then x.  Every cell of the box has
      its index inside the data. */
  function FlatIndex(v: VoxelData, x: int, y: int, z: int): (i: int)
    ensures 0 <= x && 0 <= y && 0 <= z ==> 0 <= i
    ensures InBox(v, x, y, z) ==> 0 <= i < v.xSize * v.ySize * v.zSize
  {
    assert 0 <= x && 0 <= z ==> 0 <= z * v.ySize + x * v.ySize * v.zSize by {
      if 0 <= x && 0 <= z {
        MulLeftMono(0, z, v.ySize);
        MulLeftMono(0, x, v.ySize * v.zSize);
        assert x * v.ySize * v.zSize == x * (v.ySize * v.zSize);
      }
    }
    assert InBox(v, x, y, z) ==>
      0 <= y + z * v.ySize + x * v.ySize * v.zSize < v.xSize * v.ySize * v.zSize by {
      if InBox(v, x, y, z) {
        BoxIndexInRange(v.xSize, v.ySize, v.zSize, x, y, z);
      }
    }
    y + z * v.ySize + x * v.ySize * v.zSize
  }

  predicate InBox(v: VoxelData, x: int, y: int, z: int) {
    0 <= x < v.xSize && 0 <= y < v.ySize && 0 <= z < v.zSize
  }

  /** The coordinates of cell i, the inverse of FlatIndex on the box. */
  function Unflatten(v: VoxelData, i: nat): (int, int, int)
    requires v.ySize > 0 && v.zSize > 0
  {
    (i / (v.ySize * v.zSize), i % v.ySize, (i / v.ySize) % v.zSize)
  }

  lemma MulLeftMono(a: int, b: int, c: nat)
    requires a <= b
    ensures a * c <= b * c
  {
  }

  lemma MulPred(a: int, b: int)
    ensures (a - 1) * b == a * b - b
  {
  }

  /** y + z * ys lies in [0, ys * zs) for y and z inside their bounds. */
  lemma InnerIndexInRange(y: int, z: int, ys: nat, zs: nat)
    requires 0 <= y < ys && 0 <= z < zs
    ensures 0 <= y + z * ys < ys * zs
  {
    MulLeftMono(0, z, ys);
    MulLeftMono(z, zs - 1, ys);
    MulPred(zs, ys);
  }

  /** y + z * ys + x * ys * zs lies in [0, xs * ys * zs) for a cell inside
      an xs by ys by zs box. */
  lemma BoxIndexInRange(xs: nat, ys: nat, zs: nat, x: int, y: int, z: int)
    requires 0 <= x < xs && 0 <= y < ys && 0 <= z < zs
    ensures 0 <= y + z * ys + x * ys * zs < xs * ys * zs
  {
    var plane := ys * zs;
    InnerIndexInRange(y, z, ys, zs);
    assert x * ys * zs == x * plane && xs * ys * zs == xs * plane;
    MulLeftMono(0, x, plane);
    MulLeftMono(x, xs - 1, plane);
    MulPred(xs, plane);
  }

  /** Unflatten undoes FlatIndex: distinct cells of the box never share a byte. */
  lemma {:induction false} FlatIndexRoundTrip(v: VoxelData, x: int, y: int, z: int)
    requires InBox(v, x, y, z)
    ensures Unflatten(v, FlatIndex(v, x, y, z)) == (x, y, z)
  {
    var ys, zs := v.ySize, v.zSize;
    var i := FlatIndex(v, x, y, z);
    var yz := y + z * ys;
    InnerIndexInRange(y, z, ys, zs);
    assert i == yz + x * (ys * zs);
    DivMulAdd(yz, x, ys * zs);
    assert i == y + (z + x * zs) * ys;
    DivMulAdd(y, z + x * zs, ys);
    DivMulAdd(z, x, zs);
  }

  /** Unique quotient and remainder for a non-negative remainder below d. */
  lemma DivMulAdd(r: int, q: int, d: int)
    requires 0 <= r < d
    ensures (r + q * d) / d == q && (r + q * d) % d == r
  {
    var n := r + q * d;
    var q', r' := n / d, n % d;
    assert n == q' * d + r' && 0 <= r' < d;
    if q' > q {
      MulLeftMono(q + 1, q', d);
      assert false;
    } else if q' < q {
      MulLeftMono(q' + 1, q, d);
      assert false;
    }
  }

  /** The corrected is_solid: a cell is solid when it lies inside the box and
      its byte is not the empty byte. */
  function IsSolid(v: VoxelData, x: int, y: int, z: int): (r: bool)
    requires Valid(v)
    ensures r ==> InBox(v, x, y, z)
  {
    if !InBox(v, x, y, z) then false
    else v.data[FlatIndex(v, x, y, z)] != Empty
  }

  /** is_solid as written (unity3d/AnimateScript.cs:85-92): the fourth test
      compares x, not y, with y_size, so y is never checked against the top of
      the box; a read past the data raises IndexOutOfRangeException. */
  function IsSolidAsWritten(v: VoxelData, x: int, y: int, z: int): (r: Outcome<bool>)
    requires Valid(v)
    ensures r.IndexOutOfRange? ==> y >= v.ySize
    ensures r == Ok(true) ==> 0 <= x < v.xSize && 0 <= x < v.ySize && 0 <= y && 0 <= z < v.zSize
  {
    if x < 0 || x >= v.xSize || y < 0 || x >= v.ySize || z < 0 || z >= v.zSize then Ok(false)
    else
      var i := FlatIndex(v, x, y, z);
      if i >= |v.data| then IndexOutOfRange
      else Ok(v.data[i] != Empty)
  }

  /** Where the two agree: a box no wider in x than in y, and a y inside the box. */
  lemma AsWrittenAgrees(v: VoxelData, x: int, y: int, z: int)
    requires Valid(v) && v.xSize <= v.ySize && y < v.ySize
    ensures IsSolidAsWritten(v, x, y, z) == Ok(IsSolid(v, x, y, z))
  {
  }

  /** A box two cells wide in x and one cell high in y: cell (1, 0, 0) is
      solid, yet the as-written test calls it empty because 1 >= y_size. */
  lemma WideBoxCounterexample(palette: seq<Option<MaterialId>>)
    requires |palette| == 256
    ensures var v := VoxelData(2, 1, 1, [0, 0], palette);
      Valid(v) && IsSolid(v, 1, 0, 0) && IsSolidAsWritten(v, 1, 0, 0) == Ok(false)
  {
    var v := VoxelData(2, 1, 1, [0, 0], palette);
    assert FlatIndex(v, 1, 0, 0) == 1;
  }

  /** A column two cells deep in z: the point (0, 1, 0) just above the box is
      reported solid, because the as-written test reads cell (0, 0, 1) instead. */
  lemma AboveBoxCounterexample(palette: seq<Option<MaterialId>>)
    requires |palette| == 256
    ensures var v := VoxelData(1, 1, 2, [Empty, 0], palette);
      Valid(v) && !IsSolid(v, 0, 1, 0) && IsSolidAsWritten(v, 0, 1, 0) == Ok(true)
  {
    var v := VoxelData(1, 1, 2, [Empty, 0], palette);
    assert FlatIndex(v, 0, 1, 0) == 1;
  }

  /** A single cell: asking for the point above it reads past the data. */
  lemma AboveBoxThrows(palette: seq<Option<MaterialId>>)
    requires |palette| == 256
    ensures var v := VoxelData(1, 1, 1, [0], palette);
      Valid(v) && IsSolidAsWritten(v, 0, 1, 0) == IndexOutOfRange
  {
    var v := VoxelData(1, 1, 1, [0], palette);
    assert FlatIndex(v, 0, 1, 0) == 1;
  }

  /** The six neighbours is_surface tests, in its order. */
  function Neighbours(x: int, y: int, z: int): seq<(int, int, int)> {
    [(x - 1, y, z), (x + 1, y, z), (x, y - 1, z), (x, y + 1, z), (x, y, z - 1), (x, y, z + 1)]
  }

  /** is_solid at a neighbour given as a coordinate triple. */
  function SolidAt(v: VoxelData, n: (int, int, int)): bool
    requires Valid(v)
  {
    IsSolid(v, n.0, n.1, n.2)
  }

  /** The corrected is_surface: not all six neighbours are solid. */
  function IsSurface(v: VoxelData, x: int, y: int, z: int): (r: bool)
    requires Valid(v)
    ensures !r ==> InBox(v, x - 1, y, z) && InBox(v, x + 1, y, z) && InBox(v, x, y - 1, z) &&
                   InBox(v, x, y + 1, z) && InBox(v, x, y, z - 1) && InBox(v, x, y, z + 1)
  {
    !(IsSolid(v, x - 1, y, z) && IsSolid(v, x + 1, y, z) &&
      IsSolid(v, x, y - 1, z) && IsSolid(v, x, y + 1, z) &&
      IsSolid(v, x, y, z - 1) && IsSolid(v, x, y, z + 1))
  }

  /** Both directions: a cell is on the surface exactly when some neighbour
      is not solid. */
  lemma IsSurfaceIff(v: VoxelData, x: int, y: int, z: int)
    requires Valid(v)
    ensures IsSurface(v, x, y, z) <==> exists n :: n in Neighbours(x, y, z) && !SolidAt(v, n)
  {
    var ns := Neighbours(x, y, z);
    if IsSurface(v, x, y, z) {
      var k := if !SolidAt(v, ns[0]) then 0 else if !SolidAt(v, ns[1]) then 1
               else if !SolidAt(v, ns[2]) then 2 else if !SolidAt(v, ns[3]) then 3
               else if !SolidAt(v, ns[4]) then 4 else 5;
      assert ns[k] in ns && !SolidAt(v, ns[k]);
    } else {
      forall n | n in ns
        ensures SolidAt(v, n)
      {
      }
    }
  }

  /** A cell on a face of the box is always on the surface. */
  lemma BoxFaceIsSurface(v: VoxelData, x: int, y: int, z: int)
    requires Valid(v)
    requires x == 0 || y == 0 || z == 0 || x == v.xSize - 1 || y == v.ySize - 1 || z == v.zSize - 1
    ensures IsSurface(v, x, y, z)
  {
  }

  /** is_surface as written (unity3d/AnimateScript.cs:94-99): the && chain
      stops at the first neighbour that is not solid, and an exception from
      an as-written is_solid call propagates. */
  function SurfaceScan(v: VoxelData, ns: seq<(int, int, int)>): (r: Outcome<bool>)
    requires Valid(v)
    ensures r == Ok(false) ==> forall k :: 0 <= k < |ns| ==> IsSolidAsWritten(v, ns[k].0, ns[k].1, ns[k].2) == Ok(true)
    ensures r == Ok(true) ==> exists k :: 0 <= k < |ns| && IsSolidAsWritten(v, ns[k].0, ns[k].1, ns[k].2) == Ok(false)
  {
    if ns == [] then Ok(false)
    else
      match IsSolidAsWritten(v, ns[0].0, ns[0].1, ns[0].2)
      case IndexOutOfRange => IndexOutOfRange
      case Ok(solid) =>
        if !solid then Ok(true)
        else
          var rest := SurfaceScan(v, ns[1..]);
          assert rest == Ok(true) ==> exists k :: 1 <= k < |ns| && IsSolidAsWritten(v, ns[k].0, ns[k].1, ns[k].2) == Ok(false) by {
            if rest == Ok(true) {
              var k :| 0 <= k < |ns[1..]| && IsSolidAsWritten(v, ns[1..][k].0, ns[1..][k].1, ns[1..][k].2) == Ok(false);
              assert ns[1..][k] == ns[k + 1];
            }
          }
          rest
  }

  function IsSurfaceAsWritten(v: VoxelData, x: int, y: int, z: int): (r: Outcome<bool>)
    requires Valid(v)
    ensures r == Ok(false) ==> forall n :: n in Neighbours(x, y, z) ==> IsSolidAsWritten(v, n.0, n.1, n.2) == Ok(true)
    ensures r == Ok(true) ==> exists n :: n in Neighbours(x, y, z) && IsSolidAsWritten(v, n.0, n.1, n.2) == Ok(false)
  {
    SurfaceScan(v, Neighbours(x, y, z))
  }

  /** Where every as-written test along the way is right, the scan reports
      whether some listed neighbour is not solid. */
  lemma {:induction false} ScanAgrees(v: VoxelData, ns: seq<(int, int, int)>)
    requires Valid(v)
    requires forall k :: 0 <= k < |ns| ==> IsSolidAsWritten(v, ns[k].0, ns[k].1, ns[k].2) == Ok(SolidAt(v, ns[k]))
    ensures SurfaceScan(v, ns) == Ok(exists n :: n in ns && !SolidAt(v, n))
  {
    if ns != [] {
      assert IsSolidAsWritten(v, ns[0].0, ns[0].1, ns[0].2) == Ok(SolidAt(v, ns[0]));
      if SolidAt(v, ns[0]) {
        var rest := ns[1..];
        assert forall k :: 0 <= k < |rest| ==> rest[k] == ns[k + 1];
        ScanAgrees(v, rest);
        assert forall n :: n in ns <==> n == ns[0] || n in rest;
      } else {
        assert ns[0] in ns;
      }
    }
  }

  /** Where is_solid as written is right, is_surface as written is too. */
  lemma SurfaceAsWrittenAgrees(v: VoxelData, x: int, y: int, z: int)
    requires Valid(v) && v.xSize <= v.ySize && y + 1 < v.ySize
    ensures IsSurfaceAsWritten(v, x, y, z) == Ok(IsSurface(v, x, y, z))
  {
    var ns := Neighbours(x, y, z);
    forall k | 0 <= k < |ns|
      ensures IsSolidAsWritten(v, ns[k].0, ns[k].1, ns[k].2) == Ok(SolidAt(v, ns[k]))
    {
      AsWrittenAgrees(v, ns[k].0, ns[k].1, ns[k].2);
    }
    ScanAgrees(v, ns);
    IsSurfaceIff(v, x, y, z);
  }

  /** At the top layer of a box whose cells are all solid, is_surface as
      written disagrees: the neighbour above is read from the next z slice
      instead of being treated as empty. */
  lemma TopFaceCounterexample(data: seq<byte>, palette: seq<Option<MaterialId>>)
    requires |data| == 27 && |palette| == 256
    requires forall i :: 0 <= i < 27 ==> data[i] != Empty
    ensures var v := VoxelData(3, 3, 3, data, palette);
      Valid(v) && IsSurface(v, 1, 2, 1) && IsSurfaceAsWritten(v, 1, 2, 1) == Ok(false)
  {
    var v := VoxelData(3, 3, 3, data, palette);
    var ns := Neighbours(1, 2, 1);
    assert ns[3] == (1, 3, 1) && FlatIndex(v, 1, 3, 1) == 15;
    assert !IsSolid(v, 1, 3, 1);
    assert FlatIndex(v, 0, 2, 1) == 5 && FlatIndex(v, 2, 2, 1) == 23 && FlatIndex(v, 1, 1, 1) == 13;
    assert FlatIndex(v, 1, 2, 0) == 11 && FlatIndex(v, 1, 2, 2) == 17;
    assert IsSolidAsWritten(v, 1, 2, 2) == Ok(true) && IsSolidAsWritten(v, 1, 2, 0) == Ok(true);
    assert IsSolidAsWritten(v, 1, 3, 1) == Ok(true) && IsSolidAsWritten(v, 1, 1, 1) == Ok(true);
    assert IsSolidAsWritten(v, 2, 2, 1) == Ok(true) && IsSolidAsWritten(v, 0, 2, 1) == Ok(true);
    assert SurfaceScan(v, ns[5..]) == Ok(false) by { assert ns[5..][1..] == []; }
    assert SurfaceScan(v, ns[4..]) == Ok(false) by { assert ns[4..][1..] == ns[5..]; }
    assert SurfaceScan(v, ns[3..]) == Ok(false) by { assert ns[3..][1..] == ns[4..]; }
    assert SurfaceScan(v, ns[2..]) == Ok(false) by { assert ns[2..][1..] == ns[3..]; }
    assert SurfaceScan(v, ns[1..]) == Ok(false) by { assert ns[1..][1..] == ns[2..]; }
  }

  /** get (unity3d/AnimateScript.cs:101-107): no bounds test at all; the
      empty byte gives null, any other byte its palette entry. */
  function Get(v: VoxelData, x: int, y: int, z: int): (r: Outcome<Option<MaterialId>>)
    requires |v.palette| == 256
    ensures r.IndexOutOfRange? <==> !(0 <= FlatIndex(v, x, y, z) < |v.data|)
  {
    var i := FlatIndex(v, x, y, z);
    if i < 0 || i >= |v.data| then IndexOutOfRange
    else if v.data[i] == Empty then Ok(None)
    else Ok(v.palette[v.data[i]])
  }

  /** Inside the box get never raises; an empty cell has no material and a
      solid one has the material of its palette entry. */
  lemma GetMatchesIsSolid(v: VoxelData, x: int, y: int, z: int)
    requires Valid(v) && InBox(v, x, y, z)
    ensures Get(v, x, y, z).Ok?
    ensures !IsSolid(v, x, y, z) ==> Get(v, x, y, z) == Ok(None)
    ensures IsSolid(v, x, y, z) ==> Get(v, x, y, z) == Ok(v.palette[v.data[FlatIndex(v, x, y, z)]])
    ensures (forall b :: 0 <= b < 255 ==> v.palette[b].Some?) ==>
      (Get(v, x, y, z).value.Some? <==> IsSolid(v, x, y, z))
  {
  }
}
