/** The triangle storage helpers of srcs/utils.c: the growable triangle array
    used by the marching-cubes code (`alloc_float3_arr`, `arr_float3_cat`),
    the pre-allocated triangle vertex pool and the flat triangle array. */
module Storage {
  import opened Geometry

  /** Unsigned 32-bit values (`uint`) wrap modulo this. */
  const UintModulus: nat := 0x1_0000_0000

  /** `uint2`: a pair of counts, used as (triangles held, triangles to append). */
  datatype Len = Len(x: nat, y: nat)

  // ----- the growable triangle array (float3 ** as an array of triangles) -----

  /** `alloc_float3_arr`: no array when the total length len.x + len.y is 0;
      otherwise an array of that length whose first len.x entries are those
      of mem (a reallocation keeps what fits). The entries from len.x on are
      fresh, uninitialised triangles. */
  method AllocFloat3Arr(mem: array?<Triangle>, len: Len) returns (r: array?<Triangle>)
    ensures r == null <==> len.x + len.y == 0
    ensures r != null ==> fresh(r) && r.Length == len.x + len.y
    ensures r != null && mem != null ==> forall i :: 0 <= i < len.x && i < mem.Length ==> r[i] == mem[i]
  {
    var size := len.x + len.y;
    if size == 0 {
      return null;
    }
    r := new Triangle[size];
    if mem != null {
      forall i | 0 <= i < len.x && i < mem.Length {
        r[i] := mem[i];
      }
    }
  }

  /** `arr_float3_cat`: appends the first len.y triangles of from to the len.x
      triangles of to. The result holds to's triangles followed by from's,
      and the new length pair is (len.x + len.y, 0). When both counts are 0
      there is no array and the lengths are left alone. */
  method ArrFloat3Cat(from: array?<Triangle>, to: array?<Triangle>, len: Len) returns (r: array?<Triangle>, newLen: Len)
    requires len.y > 0 ==> from != null && len.y <= from.Length
    ensures r == null <==> len.x + len.y == 0
    ensures r == null ==> newLen == len
    ensures r != null ==> newLen == Len(len.x + len.y, 0) && r.Length == len.x + len.y
    ensures r != null ==> fresh(r)
    ensures r != null && to != null ==> forall i :: 0 <= i < len.x && i < to.Length ==> r[i] == to[i]
    ensures r != null && len.y > 0 ==> r[len.x..] == from[..len.y]
  {
    var resC := len.x + len.y;
    var fromC := 0;
    var toC := len.x;
    r := AllocFloat3Arr(to, len);
    if r == null {
      return r, len;
    }
    while toC < resC
      invariant len.x <= toC <= resC && fromC == toC - len.x
      invariant to != null ==> forall i :: 0 <= i < len.x && i < to.Length ==> r[i] == to[i]
      invariant forall i :: len.x <= i < toC ==> r[i] == from[i - len.x]
    {
      r[toC] := from[fromC];
      toC := toC + 1;
      fromC := fromC + 1;
    }
    newLen := Len(resC, 0);
    assert forall i :: 0 <= i < len.y ==> r[len.x..][i] == r[len.x + i];
  }

  /** Appending the triangles of two arrays one after the other gives their
      concatenation: the contents view of `arr_float3_cat`. */
  lemma CatContents(r: seq<Triangle>, to: seq<Triangle>, from: seq<Triangle>)
    requires |r| == |to| + |from|
    requires forall i :: 0 <= i < |to| ==> r[i] == to[i]
    requires r[|to|..] == from
    ensures r == to + from
  {
    assert forall i :: |to| <= i < |r| ==> r[i] == r[|to|..][i - |to|];
  }

  // ----- the vertex pool and the flat triangle array -----

  /** Where `get_triangle_from_pool` found room for a triangle: three
      consecutive pool slots starting at index, or a separate allocation. */
  datatype Slot = PoolSlot(index: nat) | Fallback

  /** The capacity growth of `add_triangle_to_flat` as written: doubling. */
  function GrownCapacityAsWritten(capacity: nat): nat {
    capacity * 2
  }

  /** A full flat array of capacity 0 does not grow: after the doubling it
      still has fewer than the three vertex entries written at index 0. */
  lemma ZeroCapacityDoesNotGrow()
    ensures 3 * GrownCapacityAsWritten(0) < 3
  {
  }

  /** The capacity growth the flat array needs: doubling, starting from one
      triangle when the capacity is 0. */
  function GrownCapacity(capacity: nat): (c: nat)
    ensures capacity < c
    ensures capacity > 0 ==> c == GrownCapacityAsWritten(capacity)
  {
    if capacity == 0 then 1 else capacity * 2
  }

  /** A vertex sequence read as consecutive triples. */
  function Triangles(vs: seq<Point>): (ts: seq<Triangle>)
    requires |vs| % 3 == 0
    ensures |ts| * 3 == |vs|
    decreases |vs|
  {
    if |vs| == 0 then [] else [Triangle(vs[0], vs[1], vs[2])] + Triangles(vs[3..])
  }

  /** Writing a triangle's three vertices after a vertex sequence appends that
      triangle to its triples. */
  lemma {:induction false} TrianglesAppend(vs: seq<Point>, t: Triangle)
    requires |vs| % 3 == 0
    ensures Triangles(vs + Vertices(t)) == Triangles(vs) + [t]
    decreases |vs|
  {
    if |vs| == 0 {
      assert vs + Vertices(t) == [t.a, t.b, t.c];
    } else {
      assert (vs + Vertices(t))[3..] == vs[3..] + Vertices(t);
      TrianglesAppend(vs[3..], t);
    }
  }

  /** `realloc` of a vertex array: a fresh array of the new size that
      starts with the old contents. */
  method Reallocate(a: array?<Point>, size: nat) returns (r: array<Point>)
    requires a != null ==> a.Length <= size
    ensures fresh(r) && r.Length == size
    ensures a != null ==> r[..a.Length] == a[..]
  {
    r := new Point[size];
    if a != null {
      forall i | 0 <= i < a.Length {
        r[i] := a[i];
      }
    }
  }

  /** The three vertex stores of `add_triangle_to_flat`: the vertices of t
      at index i, i + 1 and i + 2, after the untouched first i entries. */
  method WriteVertices(a: array<Point>, i: nat, t: Triangle)
    requires i + 3 <= a.Length
    modifies a
    ensures a[..i + 3] == old(a[..i]) + Vertices(t)
    ensures a[i + 3..] == old(a[i + 3..])
  {
    a[i] := t.a;
    a[i + 1] := t.b;
    a[i + 2] := t.c;
  }

  /** The pool and flat-array fields of `t_data`. */
  class TriangleStore {
    var pool: array?<Point>
    var poolSize: nat
    var poolUsed: nat
    var flat: array?<Point>
    var flatCount: nat
    var flatCapacity: nat

    /** The pool holds poolSize vertices of which the first poolUsed are
        handed out; the flat array holds room for flatCapacity triangles of
        which flatCount are stored. A missing array has size 0. */
    ghost predicate Valid()
      reads this
    {
      PoolValid() && FlatValid()
    }

    ghost predicate PoolValid()
      reads this`pool, this`poolSize, this`poolUsed
    {
      poolUsed <= poolSize
      && (pool == null ==> poolSize == 0)
      && (pool != null ==> pool.Length == poolSize)
    }

    ghost predicate FlatValid()
      reads this`flat, this`flatCount, this`flatCapacity
    {
      flatCount <= flatCapacity
      && (flat == null ==> flatCapacity == 0)
      && (flat != null ==> flat.Length == 3 * flatCapacity)
    }

    /** The stored triangles, three consecutive vertices each. */
    function FlatTriangles(): (ts: seq<Triangle>)
      requires Valid()
      reads this, flat
      ensures |ts| == flatCount
    {
      if flat == null then [] else Triangles(flat[..3 * flatCount])
    }

    /** The state `init_data` leaves: no pool and no flat array. */
    constructor ()
      ensures Valid() && FlatTriangles() == []
      ensures pool == null && poolSize == 0 && poolUsed == 0
      ensures flat == null && flatCount == 0 && flatCapacity == 0
    {
      pool := null;
      poolSize := 0;
      poolUsed := 0;
      flat := null;
      flatCount := 0;
      flatCapacity := 0;
    }

    /** `init_triangle_pool`: room for 15 vertices (5 triangles) per cube,
        the count truncated to 32 bits; nothing is handed out yet. cubes is
        pow(grid_size, 3) converted to an integer. */
    method InitTrianglePool(cubes: nat)
      requires Valid()
      modifies this
      ensures Valid()
      ensures poolSize == (cubes * 5 * 3) % UintModulus && poolUsed == 0
      ensures pool != null && fresh(pool)
      ensures flat == old(flat) && flatCount == old(flatCount) && flatCapacity == old(flatCapacity)
    {
      poolSize := (cubes * 5 * 3) % UintModulus;
      pool := new Point[poolSize];
      poolUsed := 0;
    }

    /** `get_triangle_from_pool`: the next three pool slots when they fit,
        otherwise a separate allocation that leaves the pool untouched. */
    method GetTriangleFromPool() returns (s: Slot)
      requires Valid()
      modifies this`poolUsed
      ensures Valid()
      ensures old(poolUsed) + 3 > poolSize ==> s == Fallback && poolUsed == old(poolUsed)
      ensures old(poolUsed) + 3 <= poolSize ==> s == PoolSlot(old(poolUsed)) && poolUsed == old(poolUsed) + 3
      ensures s.PoolSlot? ==> old(poolUsed) <= s.index && s.index + 3 <= poolSize
    {
      if poolUsed + 3 > poolSize {
        return Fallback;
      }
      s := PoolSlot(poolUsed);
      poolUsed := poolUsed + 3;
    }

    /** `reset_triangle_pool`: every slot becomes available again. */
    method ResetTrianglePool()
      requires Valid()
      modifies this`poolUsed
      ensures Valid() && poolUsed == 0
      ensures pool == old(pool) && poolSize == old(poolSize)
    {
      poolUsed := 0;
    }

    /** `clean_triangle_pool`: the pool is released. */
    method CleanTrianglePool()
      requires Valid()
      modifies this`pool, this`poolSize, this`poolUsed
      ensures Valid()
      ensures pool == null && poolSize == 0 && poolUsed == 0
    {
      pool := null;
      poolSize := 0;
      poolUsed := 0;
    }

    /** `init_flat_triangles`: room for 5 triangles per cube, the capacity
        truncated to 32 bits; the array starts empty. */
    method InitFlatTriangles(cubes: nat)
      requires Valid()
      modifies this`flat, this`flatCapacity, this`flatCount
      ensures Valid() && FlatTriangles() == []
      ensures flatCapacity == (cubes * 5) % UintModulus
      ensures flat != null && fresh(flat)
    {
      flatCapacity := (cubes * 5) % UintModulus;
      flat := new Point[flatCapacity * 3];
      flatCount := 0;
    }

    /** `add_triangle_to_flat`: appends one triangle, growing the array first
        when it is full; the capacity grows by GrownCapacity. */
    method AddTriangleToFlat(t: Triangle)
      requires Valid()
      modifies this`flat, this`flatCapacity, this`flatCount, flat
      ensures Valid()
      ensures FlatTriangles() == old(FlatTriangles()) + [t]
      ensures flatCount == old(flatCount) + 1
      ensures old(flatCount) < old(flatCapacity) ==> flatCapacity == old(flatCapacity) && flat == old(flat)
      ensures old(flatCount) >= old(flatCapacity) ==> flatCapacity == GrownCapacity(old(flatCapacity))
      ensures pool == old(pool)
    {
      ghost var vs := if flat == null then [] else flat[..3 * flatCount];
      if flatCount >= flatCapacity {
        var newCapacity := GrownCapacity(flatCapacity);
        flat := Reallocate(flat, 3 * newCapacity);
        flatCapacity := newCapacity;
      }
      assert flat[..3 * flatCount] == vs;
      var baseIndex := flatCount * 3;
      WriteVertices(flat, baseIndex, t);
      flatCount := flatCount + 1;
      TrianglesAppend(vs, t);
    }

    /** `clean_flat_triangles`: the flat array is released and emptied. */
    method CleanFlatTriangles()
      requires Valid()
      modifies this`flat, this`flatCount, this`flatCapacity
      ensures Valid() && FlatTriangles() == []
      ensures flat == null && flatCapacity == 0
    {
      flat := null;
      flatCount := 0;
      flatCapacity := 0;
    }
  }
}
