/**
 * Vectors and the index arithmetic shared by every surface of the scene:
 * the row-major order in which two nested loops lay vertices out, the
 * two-triangles-per-cell triangulation of a grid whose last column starts
 * no cell, and the triangle fan of the flat shadow discs.
 *
 * All of it is exact small-integer arithmetic, so nothing here depends on
 * floating point.
 */
module MeshMath {

  /** Three floats: a position, a velocity or a normal. */
  datatype Vec3 = Vec3(x: real, y: real, z: real)
  {
    function Plus(v: Vec3): Vec3
    {
      Vec3(x + v.x, y + v.y, z + v.z)
    }
  }

  /** Four floats pushed together onto the vertex buffer: a homogeneous position. */
  datatype Vec4 = Vec4(x: real, y: real, z: real, w: real)
  {
    function Xyz(): Vec3
    {
      Vec3(x, y, z)
    }
  }

  /** Euclidean division: a quotient and a remainder in [0, d) determine `/` and `%`. */
  lemma DivModUnique(n: int, d: int, q: int, r: int)
    requires 0 < d && 0 <= r < d && n == q * d + r
    ensures n / d == q && n % d == r
  {
    var q', r' := n / d, n % d;
    assert n == q' * d + r';
    if q' < q {
      MulDiff(q, q', d);
      MulAtLeast(q - q', d);
    } else if q' > q {
      MulDiff(q', q, d);
      MulAtLeast(q' - q, d);
    }
  }

  lemma DivMod(n: int, d: int)
    requires 0 < d
    ensures n == (n / d) * d + n % d
  {
  }

  lemma MulDiff(a: int, b: int, d: int)
    ensures a * d - b * d == (a - b) * d
  {
  }

  lemma {:induction false} MulAtLeast(e: int, d: int)
    requires e >= 1 && d > 0
    ensures e * d >= d
  {
    if e > 1 {
      MulAtLeast(e - 1, d);
      MulDiff(e, 1, d);
    }
  }

  // ---------------------------------------------------------------------
  // Row-major layout of a nested loop

  /** The points produced by `for row < rows { for col < cols { emit f(row, col) } }`. */
  function RowMajor<T>(rows: nat, cols: nat, f: (int, int) -> T): (r: seq<T>)
    ensures |r| == rows * cols
  {
    if rows == 0 then [] else RowMajor(rows - 1, cols, f) + Row(rows - 1, cols, f)
  }

  /** The first `n` points the inner loop emits for one row. */
  function Row<T>(row: int, n: nat, f: (int, int) -> T): (r: seq<T>)
    ensures |r| == n
  {
    seq(n, col => f(row, col))
  }

  /** The point of row `row` and column `col` sits at position `row * cols + col`. */
  lemma {:induction false} RowMajorAt<T>(rows: nat, cols: nat, f: (int, int) -> T, row: int, col: int)
    requires 0 <= row < rows && 0 <= col < cols
    ensures row * cols + col < rows * cols
    ensures RowMajor(rows, cols, f)[row * cols + col] == f(row, col)
  {
    if row < rows - 1 {
      RowMajorAt(rows - 1, cols, f, row, col);
      assert (rows - 1) * cols <= rows * cols;
    } else {
      assert row * cols + col == (rows - 1) * cols + col;
    }
  }

  /** A property every generated point has holds of every element of the layout. */
  lemma {:induction false} RowMajorAll<T>(rows: nat, cols: nat, f: (int, int) -> T, P: T -> bool)
    requires forall row, col :: P(f(row, col))
    ensures forall k :: 0 <= k < rows * cols ==> P(RowMajor(rows, cols, f)[k])
  {
    if rows > 0 {
      RowMajorAll(rows - 1, cols, f, P);
      var prefix := RowMajor(rows - 1, cols, f);
      forall k | 0 <= k < rows * cols
        ensures P(RowMajor(rows, cols, f)[k])
      {
        if k >= |prefix| {
          assert RowMajor(rows, cols, f)[k] == f(rows - 1, k - |prefix|);
        }
      }
    }
  }

  /** One normal per vertex, each computed from its vertex. */
  function Normals(vs: seq<Vec4>, normal: Vec4 -> Vec3): (r: seq<Vec3>)
    ensures |r| == |vs|
    ensures forall k :: 0 <= k < |vs| ==> r[k] == normal(vs[k])
  {
    seq(|vs|, k requires 0 <= k < |vs| => normal(vs[k]))
  }

  lemma NormalsAppend(vs: seq<Vec4>, v: Vec4, normal: Vec4 -> Vec3)
    ensures Normals(vs + [v], normal) == Normals(vs, normal) + [normal(v)]
  {
    assert Normals(vs + [v], normal)[..|vs|] == Normals(vs, normal);
  }

  // ---------------------------------------------------------------------
  // UV sphere and circle parametrisation

  /** The float constant PI of the source and its double. */
  const Pi: real := 3.1415926
  const TwoPi: real := Pi * 2.0

  /**
   * Point `j` of meridian `i` of a UV sphere: phi = i / circlePoints * 2pi,
   * theta = j / (arcPoints - 1) * pi, and (r sin theta cos phi, r sin theta sin phi, r cos theta).
   * `sin` and `cos` stand for the C math library.
   */
  function SpherePoint(radius: real, circlePoints: nat, arcPoints: nat,
                       sin: real -> real, cos: real -> real, i: int, j: int): Vec3
    requires circlePoints > 0 && arcPoints > 1
  {
    var phi := (i as real / circlePoints as real) * TwoPi;
    var theta := (j as real / (arcPoints - 1) as real) * Pi;
    Vec3(radius * sin(theta) * cos(phi), radius * sin(theta) * sin(phi), radius * cos(theta))
  }

  /** The homogeneous vertex of a sphere point: its coordinates and w = 1. */
  function SphereVertex(radius: real, circlePoints: nat, arcPoints: nat,
                        sin: real -> real, cos: real -> real): (int, int) -> Vec4
    requires circlePoints > 0 && arcPoints > 1
  {
    (i, j) =>
      var p := SpherePoint(radius, circlePoints, arcPoints, sin, cos, i, j);
      Vec4(p.x, p.y, p.z, 1.0)
  }

  // ---------------------------------------------------------------------
  // Grid triangulation

  /**
   * The six indices of grid cell `i`: the "right" triangle (i, i+cols+1, i+1)
   * and then the "left" triangle (i, i+cols, i+cols+1), all offset by `base`.
   */
  function Quad(base: nat, cols: nat, i: nat): seq<nat>
  {
    [base + i, base + i + cols + 1, base + i + 1,
     base + i, base + i + cols, base + i + cols + 1]
  }

  /** The skip rule: a cell in the last column would join a row's end to the next row's start. */
  predicate EmitsCell(cols: nat, i: int)
    requires cols > 0
  {
    i % cols != cols - 1
  }

  /** The indices the loop `for i < n { if EmitsCell(cols, i) { push Quad(base, cols, i) } }` appends. */
  function CellIndices(base: nat, cols: nat, n: nat): seq<nat>
    requires cols > 0
  {
    if n == 0 then []
    else CellIndices(base, cols, n - 1) + (if EmitsCell(cols, n - 1) then Quad(base, cols, n - 1) else [])
  }

  /** Corner `j` (0, 1 or 2) of triangle `t` of an index list. */
  function Corner(ix: seq<nat>, t: nat, j: nat): nat
    requires j < 3 && 3 * t + j < |ix|
  {
    ix[3 * t + j]
  }

  /** Column of vertex `v` on a grid of `cols` columns whose first vertex is `base`. */
  function Column(base: nat, cols: nat, v: int): int
    requires cols > 0
  {
    (v - base) % cols
  }

  /**
   * Triangle `t` uses only two neighbouring columns c and c + 1 of the grid,
   * with c + 1 still inside the row: it does not wrap around a row end.
   */
  predicate SpansNeighbourColumns(base: nat, cols: nat, ix: seq<nat>, t: nat)
    requires cols > 0 && 3 * t + 2 < |ix|
  {
    var c := Column(base, cols, Corner(ix, t, 0));
    && c + 1 < cols
    && Column(base, cols, Corner(ix, t, 1)) in {c, c + 1}
    && Column(base, cols, Corner(ix, t, 2)) in {c, c + 1}
  }

  /** Every full row of `cols` cells contributes cols - 1 cells, six indices each. */
  lemma {:induction false} CellIndicesLength(base: nat, cols: nat, n: nat)
    requires cols > 0
    ensures |CellIndices(base, cols, n)| == 6 * ((n / cols) * (cols - 1) + n % cols)
  {
    if n > 0 {
      CellIndicesLength(base, cols, n - 1);
      var prev := |CellIndices(base, cols, n - 1)|;
      assert |CellIndices(base, cols, n)| == prev + (if EmitsCell(cols, n - 1) then 6 else 0);
      CountStep(cols, n, prev);
    }
  }

  /** The arithmetic of one step of CellIndicesLength: cell n - 1 is skipped or adds six indices. */
  lemma CountStep(cols: nat, n: nat, prev: int)
    requires cols > 0 && n > 0
    requires prev == 6 * (((n - 1) / cols) * (cols - 1) + (n - 1) % cols)
    ensures prev + (if (n - 1) % cols != cols - 1 then 6 else 0) == 6 * ((n / cols) * (cols - 1) + n % cols)
  {
    var q, r := (n - 1) / cols, (n - 1) % cols;
    DivMod(n - 1, cols);
    if r == cols - 1 {
      MulDiff(q + 1, q, cols);
      DivModUnique(n, cols, q + 1, 0);
      KeptAfterSkip(q, cols, prev, n / cols, n % cols);
    } else {
      DivModUnique(n, cols, q, r + 1);
      KeptAfterCell(q, r, cols, prev, n / cols, n % cols);
    }
  }

  lemma KeptAfterSkip(q: int, cols: int, prev: int, q': int, r': int)
    requires prev == 6 * (q * (cols - 1) + (cols - 1)) && q' == q + 1 && r' == 0
    ensures prev == 6 * (q' * (cols - 1) + r')
  {
    MulDiff(q + 1, q, cols - 1);
  }

  lemma KeptAfterCell(q: int, r: int, cols: int, prev: int, q': int, r': int)
    requires prev == 6 * (q * (cols - 1) + r) && q' == q && r' == r + 1
    ensures prev + 6 == 6 * (q' * (cols - 1) + r')
  {
  }

  /** A grid loop over `rows` full rows emits rows * (cols - 1) cells: 6 * rows * (cols - 1) indices. */
  lemma GridIndexCount(base: nat, cols: nat, rows: nat)
    requires cols > 0
    ensures |CellIndices(base, cols, rows * cols)| == 6 * rows * (cols - 1)
  {
    CellIndicesLength(base, cols, rows * cols);
    DivModUnique(rows * cols, cols, rows, 0);
  }

  /** An emitted cell and its right-hand neighbour are in the same row. */
  lemma EmittedCellColumns(cols: nat, i: nat)
    requires cols > 0 && EmitsCell(cols, i)
    ensures i % cols + 1 < cols
    ensures (i + 1) / cols == i / cols
    ensures (i + 1) % cols == i % cols + 1
    ensures (i + cols) % cols == i % cols
    ensures (i + cols + 1) % cols == i % cols + 1
  {
    var q, r := i / cols, i % cols;
    DivModUnique(i + 1, cols, q, r + 1);
    DivModUnique(i + cols, cols, q + 1, r);
    DivModUnique(i + cols + 1, cols, q + 1, r + 1);
  }

  /** Every index lies between `base` and `hi` when every emitted cell's top-right corner does. */
  lemma {:induction false} CellIndicesWithin(base: nat, cols: nat, n: nat, hi: int)
    requires cols > 0
    requires forall i :: 0 <= i < n && EmitsCell(cols, i) ==> base + i + cols + 1 <= hi
    ensures forall k :: 0 <= k < |CellIndices(base, cols, n)| ==> base <= CellIndices(base, cols, n)[k] <= hi
  {
    if n > 0 {
      CellIndicesWithin(base, cols, n - 1, hi);
    }
  }

  /**
   * On a grid of `rows` full rows the indices stay in [base, base + rows*cols + cols - 1]:
   * the last cell (rows*cols - 1) is in the skipped column, so the highest corner used
   * is that of cell rows*cols - 2.
   */
  lemma GridIndicesInRange(base: nat, cols: nat, rows: nat)
    requires cols > 0
    ensures forall k :: 0 <= k < |CellIndices(base, cols, rows * cols)| ==>
      base <= CellIndices(base, cols, rows * cols)[k] <= base + rows * cols + cols - 1
  {
    forall i | 0 <= i < rows * cols && EmitsCell(cols, i)
      ensures base + i + cols + 1 <= base + rows * cols + cols - 1
    {
      if i == rows * cols - 1 {
        DivModUnique(i, cols, rows - 1, cols - 1);
      }
    }
    CellIndicesWithin(base, cols, rows * cols, base + rows * cols + cols - 1);
  }

  /** No triangle of a grid joins the last column of a row to the first column of the next. */
  lemma {:induction false} GridNoWrap(base: nat, cols: nat, n: nat)
    requires cols > 0
    ensures forall t: nat :: 3 * t + 2 < |CellIndices(base, cols, n)| ==>
      SpansNeighbourColumns(base, cols, CellIndices(base, cols, n), t)
  {
    if n > 0 {
      var prefix := CellIndices(base, cols, n - 1);
      var ix := CellIndices(base, cols, n);
      GridNoWrap(base, cols, n - 1);
      CellIndicesLength(base, cols, n - 1);
      var k := ((n - 1) / cols) * (cols - 1) + (n - 1) % cols;
      assert |prefix| == 6 * k;
      forall t: nat | 3 * t + 2 < |ix|
        ensures SpansNeighbourColumns(base, cols, ix, t)
      {
        if 3 * t + 2 < |prefix| {
          SpansKeptByAppend(base, cols, prefix, ix[|prefix|..], t);
        } else {
          assert EmitsCell(cols, n - 1) && ix == prefix + Quad(base, cols, n - 1);
          assert t == 2 * k || t == 2 * k + 1;
          QuadSpansNeighbourColumns(base, cols, n - 1, prefix, 2 * k);
        }
      }
    }
  }

  /** Appending indices does not change the triangles already there. */
  lemma SpansKeptByAppend(base: nat, cols: nat, ix: seq<nat>, tail: seq<nat>, t: nat)
    requires cols > 0 && 3 * t + 2 < |ix|
    requires SpansNeighbourColumns(base, cols, ix, t)
    ensures SpansNeighbourColumns(base, cols, ix + tail, t)
  {
    assert Corner(ix + tail, t, 0) == Corner(ix, t, 0);
    assert Corner(ix + tail, t, 1) == Corner(ix, t, 1);
    assert Corner(ix + tail, t, 2) == Corner(ix, t, 2);
  }

  /** Both triangles of an emitted cell span neighbouring columns. */
  lemma QuadSpansNeighbourColumns(base: nat, cols: nat, i: nat, prefix: seq<nat>, t0: nat)
    requires cols > 0 && EmitsCell(cols, i) && |prefix| == 3 * t0
    ensures SpansNeighbourColumns(base, cols, prefix + Quad(base, cols, i), t0)
    ensures SpansNeighbourColumns(base, cols, prefix + Quad(base, cols, i), t0 + 1)
  {
    EmittedCellColumns(cols, i);
    var ix := prefix + Quad(base, cols, i);
    assert Corner(ix, t0, 0) == base + i && Corner(ix, t0 + 1, 0) == base + i;
    assert Column(base, cols, base + i) == i % cols;
    assert Column(base, cols, base + i + 1) == (i + 1) % cols;
    assert Column(base, cols, base + i + cols) == (i + cols) % cols;
    assert Column(base, cols, base + i + cols + 1) == (i + cols + 1) % cols;
  }

  // ---------------------------------------------------------------------
  // Shadow-disc triangle fan

  /**
   * The indices the loop `for i < n { push (base+1, base+1+i, base+1+i+1) }` appends:
   * every triangle pivots on base + 1, the first rim point, not on the centre vertex base.
   */
  function FanIndices(base: nat, n: nat): (r: seq<nat>)
    ensures |r| == 3 * n
    ensures forall k :: 0 <= k < |r| ==> base + 1 <= r[k] <= base + n + 1
  {
    if n == 0 then [] else FanIndices(base, n - 1) + [base + 1, base + n, base + n + 1]
  }

  /** Every triangle of the fan starts at the pivot base + 1, and the first one repeats it. */
  lemma {:induction false} FanPivot(base: nat, n: nat)
    ensures forall t :: 0 <= t < n ==> Corner(FanIndices(base, n), t, 0) == base + 1
    ensures n > 0 ==> FanIndices(base, n)[..3] == [base + 1, base + 1, base + 2]
  {
    if n > 0 {
      FanPivot(base, n - 1);
      var prefix := FanIndices(base, n - 1);
      forall t | 0 <= t < n
        ensures Corner(FanIndices(base, n), t, 0) == base + 1
      {
        if t < n - 1 {
          assert Corner(FanIndices(base, n), t, 0) == Corner(prefix, t, 0);
        }
      }
      if n > 1 {
        assert FanIndices(base, n)[..3] == prefix[..3];
      }
    }
  }
}
