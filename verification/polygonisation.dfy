/** Marching cubes over one grid cube (srcs/polygonisation.c): the cube
    index from the eight corner values, the vertices interpolated on the
    crossed edges, and the triangles read from the triangle table. The two
    lookup tables come from look-up.h, which is not part of this model; they
    are a parameter with the shape the code relies on. */
module Polygonisation {
  import opened Geometry
  import opened Storage

  /** `edgetable` (a 12-bit mask of crossed edges per cube index) and
      `tritable` (per cube index, edge triples ended by -1). */
  datatype Tables = Tables(edgeTable: seq<bv32>, triTable: seq<seq<int>>)

  /** The corners joined by each of the twelve cube edges. */
  const EdgeStart: seq<int> := [0, 1, 2, 3, 4, 5, 6, 7, 0, 1, 2, 3]
  const EdgeEnd: seq<int> := [1, 2, 3, 0, 5, 6, 7, 4, 4, 5, 6, 7]

  predicate Bit(m: bv32, k: nat)
    requires k < 32
  {
    m & (1 << k) != 0
  }

  /** A triangle-table row: edge triples (each edge 0..11) ended by -1. */
  predicate ValidRow(row: seq<int>)
    decreases |row|
  {
    |row| > 0
    && (row[0] == -1
        || (|row| > 3 && 0 <= row[0] < 12 && 0 <= row[1] < 12 && 0 <= row[2] < 12 && ValidRow(row[3..])))
  }

  /** Every edge a row names is in mask. */
  predicate RowUsesOnly(row: seq<int>, mask: bv32)
    requires ValidRow(row)
    decreases |row|
  {
    row[0] == -1 || (Bit(mask, row[0]) && Bit(mask, row[1]) && Bit(mask, row[2]) && RowUsesOnly(row[3..], mask))
  }

  /** The tables have 256 entries, every row is well formed, and each row
      uses only edges its edge mask marks as crossed. */
  predicate ValidTables(t: Tables) {
    |t.edgeTable| == 256 && |t.triTable| == 256
    && forall ci :: 0 <= ci < 256 ==> ValidRow(t.triTable[ci]) && RowUsesOnly(t.triTable[ci], t.edgeTable[ci])
  }

  /** The edge table of the classic algorithm: edge e is crossed exactly when
      its two corners lie on different sides of the surface. */
  ghost predicate StandardEdgeTable(t: Tables)
    requires |t.edgeTable| == 256
  {
    forall ci: bv32 :: ci < 256 ==>
      t.edgeTable[ci] < 4096
      && forall e :: 0 <= e < 12 ==> (Bit(t.edgeTable[ci], e) <==> Bit(ci, EdgeStart[e]) != Bit(ci, EdgeEnd[e]))
  }

  /** `getCubeIndex`: bit k is set exactly when corner k has a nonzero value. */
  function CubeIndex(vVal: seq<real>, p: nat): (ci: bv32)
    requires p + 8 <= |vVal|
    ensures ci < 256
    ensures forall k :: 0 <= k < 8 ==> (Bit(ci, k) <==> vVal[p + k] != 0.0)
  {
    (if vVal[p + 0] != 0.0 then 1 else 0)
    | (if vVal[p + 1] != 0.0 then 2 else 0)
    | (if vVal[p + 2] != 0.0 then 4 else 0)
    | (if vVal[p + 3] != 0.0 then 8 else 0)
    | (if vVal[p + 4] != 0.0 then 16 else 0)
    | (if vVal[p + 5] != 0.0 then 32 else 0)
    | (if vVal[p + 6] != 0.0 then 64 else 0)
    | (if vVal[p + 7] != 0.0 then 128 else 0)
  }

  /** `interpolate`: the iso-level is 1.0; an endpoint already at that level,
      or an edge with equal values, gives an endpoint. On binary values the
      result is always an endpoint, and on a crossed edge it is the corner
      whose value is 1. */
  function Interpolate(p0: Point, p1: Point, v0: real, v1: real): (r: Point)
    ensures v0 in {0.0, 1.0} && v1 in {0.0, 1.0} ==> r in {p0, p1}
    ensures v0 in {0.0, 1.0} && v1 in {0.0, 1.0} && v0 != v1 ==> r == (if v0 == 1.0 then p0 else p1)
  {
    if v0 == 1.0 then p0
    else if v1 == 1.0 then p1
    else if v1 - v0 == 0.0 then p0
    else Lerp(p0, p1, (1.0 - v0) / (v1 - v0))
  }

  /** The vertex on edge e of the cube whose corners start at p. */
  function EdgeVertex(e: nat, vPos: seq<Point>, vVal: seq<real>, p: nat): Point
    requires e < 12 && p + 8 <= |vPos| && p + 8 <= |vVal|
  {
    var a := p + EdgeStart[e];
    var b := p + EdgeEnd[e];
    Interpolate(vPos[a], vPos[b], vVal[a], vVal[b])
  }

  /** The vertex list after the crossed edges are filled in: entry e is the
      interpolated vertex when mask marks edge e, otherwise whatever the list
      held before. */
  function EdgeVertices(mask: bv32, vPos: seq<Point>, vVal: seq<real>, p: nat, before: seq<Point>): (vl: seq<Point>)
    requires p + 8 <= |vPos| && p + 8 <= |vVal| && |before| == 12
    ensures |vl| == 12
  {
    seq(12, e requires 0 <= e < 12 => if Bit(mask, e) then EdgeVertex(e, vPos, vVal, p) else before[e])
  }

  /** The vertex list after the first k edge tests. */
  ghost function EdgeVerticesBelow(mask: bv32, vPos: seq<Point>, vVal: seq<real>, p: nat, before: seq<Point>, k: nat): (vl: seq<Point>)
    requires p + 8 <= |vPos| && p + 8 <= |vVal| && |before| == 12 && k <= 12
    ensures |vl| == 12
  {
    seq(12, e requires 0 <= e < 12 => if e < k && Bit(mask, e) then EdgeVertex(e, vPos, vVal, p) else before[e])
  }

  /** Edge test k changes only entry k. */
  lemma FilledUpTo(mask: bv32, vPos: seq<Point>, vVal: seq<real>, p: nat, before: seq<Point>, k: nat)
    requires p + 8 <= |vPos| && p + 8 <= |vVal| && |before| == 12 && k < 12
    ensures var vl := EdgeVerticesBelow(mask, vPos, vVal, p, before, k);
            EdgeVerticesBelow(mask, vPos, vVal, p, before, k + 1)
            == vl[k := if Bit(mask, k) then EdgeVertex(k, vPos, vVal, p) else vl[k]]
  {
  }

  /** The triangles a row describes over a vertex list. */
  function CubeTriangles(row: seq<int>, vl: seq<Point>): (ts: seq<Triangle>)
    requires ValidRow(row) && |vl| == 12
    ensures |ts| * 3 < |row|
    decreases |row|
  {
    if row[0] == -1 then []
    else [Triangle(vl[row[0]], vl[row[1]], vl[row[2]])] + CubeTriangles(row[3..], vl)
  }

  /** The triangles of one cube, given what the vertex list held before the
      crossed edges were filled in; no triangles when no edge is crossed. */
  function MeshWith(t: Tables, vPos: seq<Point>, vVal: seq<real>, p: nat, before: seq<Point>): seq<Triangle>
    requires ValidTables(t) && p + 8 <= |vPos| && p + 8 <= |vVal| && |before| == 12
  {
    var ci := CubeIndex(vVal, p);
    var mask := t.edgeTable[ci];
    if mask == 0 then []
    else CubeTriangles(t.triTable[ci], EdgeVertices(mask, vPos, vVal, p, before))
  }

  /** The triangles of one cube. By FilledListGivesMesh, the entries of
      uncrossed edges do not matter, so they are fixed here. */
  function Mesh(t: Tables, vPos: seq<Point>, vVal: seq<real>, p: nat): seq<Triangle>
    requires ValidTables(t) && p + 8 <= |vPos| && p + 8 <= |vVal|
  {
    MeshWith(t, vPos, vVal, p, seq(12, _ => Origin))
  }

  /** The contents of a possibly missing triangle array. */
  function Contents(a: array?<Triangle>): seq<Triangle>
    reads a
  {
    if a == null then [] else a[..]
  }

  /** One of the twelve edge tests: entry e of the vertex list is recomputed
      when mask marks edge e; the tests before it have been done. */
  method UpdateEdgeVertex(vertlist: array<Point>, mask: bv32, e: nat, vPos: seq<Point>, vVal: seq<real>, p: nat, ghost before: seq<Point>)
    requires vertlist.Length == 12 && e < 12 && p + 8 <= |vPos| && p + 8 <= |vVal| && |before| == 12
    requires vertlist[..] == EdgeVerticesBelow(mask, vPos, vVal, p, before, e)
    modifies vertlist
    ensures vertlist[..] == EdgeVerticesBelow(mask, vPos, vVal, p, before, e + 1)
  {
    FilledUpTo(mask, vPos, vVal, p, before, e);
    if mask & (1 << e) != 0 {
      var a := p + EdgeStart[e];
      var b := p + EdgeEnd[e];
      vertlist[e] := Interpolate(vPos[a], vPos[b], vVal[a], vVal[b]);
    }
  }

  /** The twelve edge tests shared by `get_vertices` and
      `polygonise_optimized`, in edge order. */
  method FillVertices(vertlist: array<Point>, mask: bv32, vPos: seq<Point>, vVal: seq<real>, p: nat)
    requires vertlist.Length == 12 && p + 8 <= |vPos| && p + 8 <= |vVal|
    modifies vertlist
    ensures vertlist[..] == EdgeVertices(mask, vPos, vVal, p, old(vertlist[..]))
  {
    ghost var before := vertlist[..];
    assert vertlist[..] == EdgeVerticesBelow(mask, vPos, vVal, p, before, 0);
    UpdateEdgeVertex(vertlist, mask, 0, vPos, vVal, p, before);
    UpdateEdgeVertex(vertlist, mask, 1, vPos, vVal, p, before);
    UpdateEdgeVertex(vertlist, mask, 2, vPos, vVal, p, before);
    UpdateEdgeVertex(vertlist, mask, 3, vPos, vVal, p, before);
    UpdateEdgeVertex(vertlist, mask, 4, vPos, vVal, p, before);
    UpdateEdgeVertex(vertlist, mask, 5, vPos, vVal, p, before);
    UpdateEdgeVertex(vertlist, mask, 6, vPos, vVal, p, before);
    UpdateEdgeVertex(vertlist, mask, 7, vPos, vVal, p, before);
    UpdateEdgeVertex(vertlist, mask, 8, vPos, vVal, p, before);
    UpdateEdgeVertex(vertlist, mask, 9, vPos, vVal, p, before);
    UpdateEdgeVertex(vertlist, mask, 10, vPos, vVal, p, before);
    UpdateEdgeVertex(vertlist, mask, 11, vPos, vVal, p, before);
    assert EdgeVerticesBelow(mask, vPos, vVal, p, before, 12) == EdgeVertices(mask, vPos, vVal, p, before);
  }

  /** `get_vertices`: a newly allocated vertex list with the crossed edges
      filled in (the other entries are uninitialised). */
  method GetVertices(t: Tables, cubeIndex: bv32, vPos: seq<Point>, vVal: seq<real>, p: nat) returns (vertlist: array<Point>)
    requires |t.edgeTable| == 256 && cubeIndex < 256 && p + 8 <= |vPos| && p + 8 <= |vVal|
    ensures fresh(vertlist) && vertlist.Length == 12
    ensures forall e :: 0 <= e < 12 && Bit(t.edgeTable[cubeIndex], e) ==> vertlist[e] == EdgeVertex(e, vPos, vVal, p)
  {
    vertlist := new Point[12];
    FillVertices(vertlist, t.edgeTable[cubeIndex], vPos, vVal, p);
  }

  /** `package_triangles`: a one-triangle array holding the vertices named by
      the row entries i, i + 1 and i + 2. */
  method PackageTriangles(vertlist: array<Point>, t: Tables, cubeIndex: bv32, i: nat) returns (trisNew: array<Triangle>)
    requires vertlist.Length == 12 && |t.triTable| == 256 && cubeIndex < 256
    requires i <= |t.triTable[cubeIndex]| && ValidRow(t.triTable[cubeIndex][i..]) && t.triTable[cubeIndex][i] != -1
    ensures fresh(trisNew) && trisNew.Length == 1
    ensures var row := t.triTable[cubeIndex];
            trisNew[0] == Triangle(vertlist[row[i]], vertlist[row[i + 1]], vertlist[row[i + 2]])
  {
    var len := Len(0, 1);
    var tris := AllocFloat3Arr(null, len);
    var row := t.triTable[cubeIndex];
    assert row[i..][0] == row[i] && row[i..][1] == row[i + 1] && row[i..][2] == row[i + 2];
    tris[0] := Triangle(vertlist[row[i]], vertlist[row[i + 1]], vertlist[row[i + 2]]);
    return tris;
  }

  /** One pass of the triangle loop: `package_triangles` for the triple at
      i, then `arr_float3_cat` onto the triangles so far. */
  method AppendRowTriangle(vertlist: array<Point>, t: Tables, cubeIndex: bv32, i: nat, tris: array?<Triangle>, len: Len)
    returns (r: array?<Triangle>, newLen: Len)
    requires vertlist.Length == 12 && |t.triTable| == 256 && cubeIndex < 256
    requires i <= |t.triTable[cubeIndex]| && ValidRow(t.triTable[cubeIndex][i..]) && t.triTable[cubeIndex][i] != -1
    requires tris == null <==> len.x == 0
    requires tris != null ==> tris.Length == len.x
    ensures r != null && fresh(r) && r.Length == newLen.x && newLen.x == len.x + 1
    ensures var row := t.triTable[cubeIndex];
            Contents(r) == Contents(tris) + [Triangle(vertlist[row[i]], vertlist[row[i + 1]], vertlist[row[i + 2]])]
  {
    var trisNew := PackageTriangles(vertlist, t, cubeIndex, i);
    var catLen := len.(y := 1);
    ghost var tri := trisNew[0];
    assert trisNew[..] == [tri];
    r, newLen := ArrFloat3Cat(trisNew, tris, catLen);
    CatContents(r[..], Contents(tris), [tri]);
  }

  /** The loop shared by `polygonise` and `polygonise_optimized`: one
      `package_triangles` and one `arr_float3_cat` per row triple until the
      -1 terminator. The result holds the row's triangles over the vertex
      list, count of them, and is missing exactly when there are none. */
  method CollectTriangles(vertlist: array<Point>, t: Tables, cubeIndex: bv32) returns (tris: array?<Triangle>, count: nat)
    requires vertlist.Length == 12 && |t.triTable| == 256 && cubeIndex < 256 && ValidRow(t.triTable[cubeIndex])
    ensures Contents(tris) == CubeTriangles(t.triTable[cubeIndex], vertlist[..])
    ensures count == |Contents(tris)|
    ensures tris == null <==> count == 0
    ensures tris != null ==> fresh(tris)
  {
    tris := null;
    var i := 0;
    var len := Len(0, 0);
    ghost var vl := vertlist[..];
    ghost var done: seq<Triangle> := [];
    var row := t.triTable[cubeIndex];
    while row[i] != -1
      invariant i <= |row| && ValidRow(row[i..])
      invariant tris == null <==> len.x == 0
      invariant tris != null ==> fresh(tris)
      invariant tris != null ==> tris.Length == len.x
      invariant Contents(tris) == done
      invariant vertlist[..] == vl
      invariant done + CubeTriangles(row[i..], vl) == CubeTriangles(row, vl)
      decreases |row| - i
    {
      RowStep(row, i, vl);
      ghost var tri := Triangle(vl[row[i]], vl[row[i + 1]], vl[row[i + 2]]);
      assert done + ([tri] + CubeTriangles(row[i + 3..], vl)) == (done + [tri]) + CubeTriangles(row[i + 3..], vl);
      tris, len := AppendRowTriangle(vertlist, t, cubeIndex, i, tris, len);
      done := done + [tri];
      i := i + 3;
    }
    count := len.x;
  }

  /** A row triple that is not the terminator contributes one triangle
      ahead of the rest of the row. */
  lemma RowStep(row: seq<int>, i: nat, vl: seq<Point>)
    requires i <= |row| && ValidRow(row[i..]) && row[i] != -1 && |vl| == 12
    ensures i + 3 < |row| && ValidRow(row[i + 3..])
    ensures 0 <= row[i] < 12 && 0 <= row[i + 1] < 12 && 0 <= row[i + 2] < 12
    ensures CubeTriangles(row[i..], vl) == [Triangle(vl[row[i]], vl[row[i + 1]], vl[row[i + 2]])] + CubeTriangles(row[i + 3..], vl)
  {
    assert row[i..][3..] == row[i + 3..];
  }

  /** The part of `t_data` the marching cubes touch: the length pair whose y
      receives the triangle count, and the shared vertex list. */
  class MarchingData {
    var len: Len
    var mcVertlist: array?<Point>

    /** `polygonise`: no array and len untouched when no edge is crossed;
        otherwise the cube's triangles (no array when there are none), with
        their count stored in len.y. */
    method Polygonise(t: Tables, vPos: seq<Point>, vVal: seq<real>, p: nat) returns (tris: array?<Triangle>)
      requires ValidTables(t) && p + 8 <= |vPos| && p + 8 <= |vVal|
      modifies this`len
      ensures Contents(tris) == Mesh(t, vPos, vVal, p)
      ensures tris == null <==> |Mesh(t, vPos, vVal, p)| == 0
      ensures tris != null ==> fresh(tris)
      ensures t.edgeTable[CubeIndex(vVal, p)] == 0 ==> tris == null && len == old(len)
      ensures t.edgeTable[CubeIndex(vVal, p)] != 0 ==> len == old(len).(y := |Mesh(t, vPos, vVal, p)|)
    {
      var cubeIndex := CubeIndex(vVal, p);
      if t.edgeTable[cubeIndex] == 0 {
        return null;
      }
      var vertlist := GetVertices(t, cubeIndex, vPos, vVal, p);
      var count;
      tris, count := CollectTriangles(vertlist, t, cubeIndex);
      this.len := this.len.(y := count);
      FilledListGivesMesh(t, vPos, vVal, p, vertlist[..]);
    }

    /** `polygonise_optimized`: the same triangles, computed in the shared
        vertex list instead of a new one; that list keeps the crossed edges'
        vertices afterwards. */
    method PolygoniseOptimized(t: Tables, vPos: seq<Point>, vVal: seq<real>, p: nat) returns (tris: array?<Triangle>)
      requires ValidTables(t) && p + 8 <= |vPos| && p + 8 <= |vVal|
      requires mcVertlist != null && mcVertlist.Length == 12
      modifies this`len, mcVertlist
      ensures Contents(tris) == Mesh(t, vPos, vVal, p)
      ensures tris == null <==> |Mesh(t, vPos, vVal, p)| == 0
      ensures tris != null ==> fresh(tris)
      ensures t.edgeTable[CubeIndex(vVal, p)] == 0 ==> tris == null && len == old(len)
      ensures t.edgeTable[CubeIndex(vVal, p)] != 0 ==> len == old(len).(y := |Mesh(t, vPos, vVal, p)|)
      ensures mcVertlist[..] == EdgeVertices(t.edgeTable[CubeIndex(vVal, p)], vPos, vVal, p, old(mcVertlist[..]))
    {
      var cubeIndex := CubeIndex(vVal, p);
      if t.edgeTable[cubeIndex] == 0 {
        assert mcVertlist[..] == EdgeVertices(0, vPos, vVal, p, mcVertlist[..]);
        return null;
      }
      var vertlist := mcVertlist;
      FillVertices(vertlist, t.edgeTable[cubeIndex], vPos, vVal, p);
      var count;
      tris, count := CollectTriangles(vertlist, t, cubeIndex);
      this.len := this.len.(y := count);
      FilledListGivesMesh(t, vPos, vVal, p, vertlist[..]);
    }
  }

  // ----- properties -----

  /** Entries a row does not use never reach the triangles: two vertex
      lists that agree on the edges of mask give the same triangles. */
  lemma {:induction false} AgreeingListsSameTriangles(row: seq<int>, mask: bv32, a: seq<Point>, b: seq<Point>)
    requires ValidRow(row) && RowUsesOnly(row, mask) && |a| == 12 && |b| == 12
    requires forall e :: 0 <= e < 12 && Bit(mask, e) ==> a[e] == b[e]
    ensures CubeTriangles(row, a) == CubeTriangles(row, b)
    decreases |row|
  {
    if row[0] != -1 {
      AgreeingListsSameTriangles(row[3..], mask, a, b);
    }
  }

  /** A vertex list holding the interpolated vertex on every crossed edge
      (whatever its other entries) yields the cube's mesh. */
  lemma FilledListGivesMesh(t: Tables, vPos: seq<Point>, vVal: seq<real>, p: nat, vl: seq<Point>)
    requires ValidTables(t) && p + 8 <= |vPos| && p + 8 <= |vVal| && |vl| == 12
    requires t.edgeTable[CubeIndex(vVal, p)] != 0
    requires forall e :: 0 <= e < 12 && Bit(t.edgeTable[CubeIndex(vVal, p)], e) ==> vl[e] == EdgeVertex(e, vPos, vVal, p)
    ensures CubeTriangles(t.triTable[CubeIndex(vVal, p)], vl) == Mesh(t, vPos, vVal, p)
  {
    var ci := CubeIndex(vVal, p);
    var mask := t.edgeTable[ci];
    var full := EdgeVertices(mask, vPos, vVal, p, seq(12, _ => Origin));
    AgreeingListsSameTriangles(t.triTable[ci], mask, vl, full);
  }

  /** Triangle j of a cube uses the vertices of row entries 3j, 3j + 1, 3j + 2. */
  lemma {:induction false} TriangleAt(row: seq<int>, vl: seq<Point>, j: nat)
    requires ValidRow(row) && |vl| == 12 && j < |CubeTriangles(row, vl)|
    ensures 3 * j + 2 < |row|
    ensures 0 <= row[3 * j] < 12 && 0 <= row[3 * j + 1] < 12 && 0 <= row[3 * j + 2] < 12
    ensures CubeTriangles(row, vl)[j] == Triangle(vl[row[3 * j]], vl[row[3 * j + 1]], vl[row[3 * j + 2]])
    decreases |row|
  {
    if j > 0 {
      TriangleAt(row[3..], vl, j - 1);
      assert row[3..][3 * (j - 1)] == row[3 * j];
      assert row[3..][3 * (j - 1) + 1] == row[3 * j + 1];
      assert row[3..][3 * (j - 1) + 2] == row[3 * j + 2];
    }
  }

  /** The triangles stop exactly at the -1 terminator: the entry after the
      last triple is -1. */
  lemma {:induction false} TrianglesEndAtTerminator(row: seq<int>, vl: seq<Point>)
    requires ValidRow(row) && |vl| == 12
    ensures 3 * |CubeTriangles(row, vl)| < |row| && row[3 * |CubeTriangles(row, vl)|] == -1
    decreases |row|
  {
    if row[0] != -1 {
      TrianglesEndAtTerminator(row[3..], vl);
      assert row[3..][3 * |CubeTriangles(row[3..], vl)|] == row[3 * |CubeTriangles(row, vl)|];
    }
  }

  /** A table row of 16 entries describes at most five triangles. */
  lemma AtMostFiveTriangles(row: seq<int>, vl: seq<Point>)
    requires ValidRow(row) && |vl| == 12 && |row| == 16
    ensures |CubeTriangles(row, vl)| <= 5
  {
  }

  /** With a standard edge table, a cube whose corners are all outside or all
      inside crosses no edge, so it yields no triangles and leaves len alone. */
  lemma UniformCubeHasNoEdges(t: Tables, vVal: seq<real>, p: nat)
    requires |t.edgeTable| == 256 && StandardEdgeTable(t) && p + 8 <= |vVal|
    requires (forall k :: p <= k < p + 8 ==> vVal[k] == 0.0) || (forall k :: p <= k < p + 8 ==> vVal[k] != 0.0)
    ensures t.edgeTable[CubeIndex(vVal, p)] == 0
  {
    var ci := CubeIndex(vVal, p);
    UniformCubeIndex(vVal, p);
    assert forall e :: 0 <= e < 12 ==> Bit(ci, EdgeStart[e]) == Bit(ci, EdgeEnd[e]);
    var m := t.edgeTable[ci];
    assert forall e :: 0 <= e < 12 ==> !Bit(m, e);
    NoBitsIsZero(m);
  }

  /** All corners outside give cube index 0; all corners inside give 255. */
  lemma UniformCubeIndex(vVal: seq<real>, p: nat)
    requires p + 8 <= |vVal|
    ensures (forall k :: p <= k < p + 8 ==> vVal[k] == 0.0) ==> CubeIndex(vVal, p) == 0
    ensures (forall k :: p <= k < p + 8 ==> vVal[k] != 0.0) ==> CubeIndex(vVal, p) == 255
  {
    if forall k :: p <= k < p + 8 ==> vVal[k] == 0.0 {
      assert vVal[p] == 0.0 && vVal[p + 1] == 0.0 && vVal[p + 2] == 0.0 && vVal[p + 3] == 0.0;
      assert vVal[p + 4] == 0.0 && vVal[p + 5] == 0.0 && vVal[p + 6] == 0.0 && vVal[p + 7] == 0.0;
    }
    if forall k :: p <= k < p + 8 ==> vVal[k] != 0.0 {
      assert vVal[p] != 0.0 && vVal[p + 1] != 0.0 && vVal[p + 2] != 0.0 && vVal[p + 3] != 0.0;
      assert vVal[p + 4] != 0.0 && vVal[p + 5] != 0.0 && vVal[p + 6] != 0.0 && vVal[p + 7] != 0.0;
    }
  }

  /** A mask below 4096 with none of its twelve bits set is zero. */
  lemma NoBitsIsZero(m: bv32)
    requires m < 4096 && forall e :: 0 <= e < 12 ==> !Bit(m, e)
    ensures m == 0
  {
    assert !Bit(m, 0) && !Bit(m, 1) && !Bit(m, 2) && !Bit(m, 3) && !Bit(m, 4) && !Bit(m, 5);
    assert !Bit(m, 6) && !Bit(m, 7) && !Bit(m, 8) && !Bit(m, 9) && !Bit(m, 10) && !Bit(m, 11);
  }

  /** Unless both values are equal and off the iso-level, the interpolated
      vertex is the point of the edge where the linearly interpolated field
      value is exactly 1.0. */
  lemma InterpolateHitsIsoLevel(p0: Point, p1: Point, v0: real, v1: real)
    requires v0 == 1.0 || v1 == 1.0 || v0 != v1
    ensures exists mu :: Interpolate(p0, p1, v0, v1) == Lerp(p0, p1, mu) && v0 + mu * (v1 - v0) == 1.0
  {
    if v0 == 1.0 {
      assert Interpolate(p0, p1, v0, v1) == Lerp(p0, p1, 0.0) && v0 + 0.0 * (v1 - v0) == 1.0;
    } else if v1 == 1.0 {
      assert Interpolate(p0, p1, v0, v1) == Lerp(p0, p1, 1.0) && v0 + 1.0 * (v1 - v0) == 1.0;
    } else {
      var mu := (1.0 - v0) / (v1 - v0);
      assert mu * (v1 - v0) == 1.0 - v0;
      assert Interpolate(p0, p1, v0, v1) == Lerp(p0, p1, mu);
    }
  }
}
