/**
 * The geometry builders of the full scene (src/run.cpp): ground, back wall,
 * sphere and the two shadow discs, appended one after another to one shared
 * set of buffers. Each builder takes the offset at which its own vertices
 * start (`lastIndex`) and returns the vertex count after it ran, and `init`
 * chains these returns.
 *
 * The vertex buffer holds four floats per vertex; here each group of four is
 * one `Vec4`, so the source's `vertices.size() / 4` is `|vertices|`.
 */
module SceneMesh {
  import opened MeshMath

  /** xPoints of makeGround and makeWall; yPoints = zPoints = 4.0 / 4.0 * xPoints. */
  const GridPoints: nat := 31
  /** Iterations of the grid index loop: (round(yPoints) - 1) * round(xPoints). */
  const GridCells: nat := (GridPoints - 1) * GridPoints
  /** Vertices of one grid. */
  const GridVertexCount: nat := GridPoints * GridPoints

  /** circlePoints of makeSphere and of the shadow builders (even). */
  const CirclePoints: nat := 22
  /** arcPoints of makeSphere (odd). */
  const ArcPoints: nat := 15
  /** Vertices of the sphere: circlePoints + 1 meridians of arcPoints points. */
  const SphereVertexCount: nat := (CirclePoints + 1) * ArcPoints
  /** `squares` of makeSphere; its index loop runs i = 0 .. squares. */
  const Squares: nat := ArcPoints * CirclePoints - 1

  /** Vertices of one shadow disc: the centre and circlePoints + 1 rim points. */
  const ShadowVertexCount: nat := CirclePoints + 2

  /** Grid spacing 4.0 / 31 of both planes. */
  const Step: real := 4.0 / GridPoints as real
  /** offsetX = -xLength / 2 + dx / 2 of both planes. */
  const OffsetX: real := -2.0 + Step / 2.0
  /** offsetY = -2 + dy of the ground. */
  const GroundOffsetY: real := -2.0 + Step
  /** The y of every wall vertex. */
  const WallY: real := 2.0

  /** Ground vertex of row i, column j: (j*dy + offsetX, i*dx + offsetY, 0, 1). */
  function GroundVertex(i: int, j: int): Vec4
  {
    Vec4(j as real * Step + OffsetX, i as real * Step + GroundOffsetY, 0.0, 1.0)
  }

  /** Wall vertex of row i, column j: (j*dx + offsetX, 2, i*dz + offsetZ, 1) with offsetZ = 0. */
  function WallVertex(i: int, j: int): Vec4
  {
    Vec4(j as real * Step + OffsetX, WallY, i as real * Step + 0.0, 1.0)
  }

  /** The constant face normal (0, -1, 0) of the ground. */
  function GroundNormal(v: Vec4): Vec3
  {
    Vec3(0.0, -1.0, 0.0)
  }

  /** The constant face normal (0, 0, 1) of the wall. */
  function WallNormal(v: Vec4): Vec3
  {
    Vec3(0.0, 0.0, 1.0)
  }

  /** The normal makeSphere pushes for a vertex: its position, normalised. */
  function SphereNormal(normalize: Vec3 -> Vec3): Vec4 -> Vec3
  {
    (v: Vec4) => normalize(v.Xyz())
  }

  /** The 961 ground vertices, row by row: all in the z = 0 plane with w = 1. */
  function GroundVertices(): (r: seq<Vec4>)
    ensures |r| == GridVertexCount
    ensures forall k :: 0 <= k < |r| ==> r[k].z == 0.0 && r[k].w == 1.0
  {
    RowMajorAll(GridPoints, GridPoints, GroundVertex, (v: Vec4) => v.z == 0.0 && v.w == 1.0);
    RowMajor(GridPoints, GridPoints, GroundVertex)
  }

  /** The 961 wall vertices, row by row: all in the y = 2 plane with w = 1. */
  function WallVertices(): (r: seq<Vec4>)
    ensures |r| == GridVertexCount
    ensures forall k :: 0 <= k < |r| ==> r[k].y == WallY && r[k].w == 1.0
  {
    RowMajorAll(GridPoints, GridPoints, WallVertex, (v: Vec4) => v.y == WallY && v.w == 1.0);
    RowMajor(GridPoints, GridPoints, WallVertex)
  }

  /** The 345 sphere vertices, meridian by meridian, all with w = 1. */
  function SphereVertices(radius: real, sin: real -> real, cos: real -> real): (r: seq<Vec4>)
    ensures |r| == SphereVertexCount
    ensures forall k :: 0 <= k < |r| ==> r[k].w == 1.0
  {
    var f := SphereVertex(radius, CirclePoints, ArcPoints, sin, cos);
    RowMajorAll(CirclePoints + 1, ArcPoints, f, (v: Vec4) => v.w == 1.0);
    RowMajor(CirclePoints + 1, ArcPoints, f)
  }

  /** Rim point i of a shadow disc centred at (0, 0): (r cos phi, r sin phi) with phi = i / 22 * 2pi. */
  function RimPoint(radius: real, sin: real -> real, cos: real -> real, i: int): (real, real)
  {
    var phi := (i as real / CirclePoints as real) * TwoPi;
    (0.0 + radius * cos(phi), 0.0 + radius * sin(phi))
  }

  /** The first n rim points of the wall shadow, each pushed as (x, y, 0, 1). */
  function WallShadowRim(radius: real, sin: real -> real, cos: real -> real, n: nat): seq<Vec4>
  {
    if n == 0 then []
    else
      var (x, y) := RimPoint(radius, sin, cos, n - 1);
      WallShadowRim(radius, sin, cos, n - 1) + [Vec4(x, y, 0.0, 1.0)]
  }

  /** The first n rim points of the ground shadow, each pushed as (x, 0, y, 1). */
  function GroundShadowRim(radius: real, sin: real -> real, cos: real -> real, n: nat): seq<Vec4>
  {
    if n == 0 then []
    else
      var (x, y) := RimPoint(radius, sin, cos, n - 1);
      GroundShadowRim(radius, sin, cos, n - 1) + [Vec4(x, 0.0, y, 1.0)]
  }

  /** The centre vertex (centerX, centerY, 0, 1) pushed first by both shadow builders. */
  const ShadowCentre: Vec4 := Vec4(0.0, 0.0, 0.0, 1.0)

  /** The 24 wall-shadow vertices: all have third component 0 and w = 1. */
  function WallShadowVertices(radius: real, sin: real -> real, cos: real -> real): (r: seq<Vec4>)
    ensures |r| == ShadowVertexCount
    ensures forall k :: 0 <= k < |r| ==> r[k].z == 0.0 && r[k].w == 1.0
  {
    WallShadowRimFlat(radius, sin, cos, CirclePoints + 1);
    [ShadowCentre] + WallShadowRim(radius, sin, cos, CirclePoints + 1)
  }

  /** The 24 ground-shadow vertices: all have second component 0 and w = 1. */
  function GroundShadowVertices(radius: real, sin: real -> real, cos: real -> real): (r: seq<Vec4>)
    ensures |r| == ShadowVertexCount
    ensures forall k :: 0 <= k < |r| ==> r[k].y == 0.0 && r[k].w == 1.0
  {
    GroundShadowRimFlat(radius, sin, cos, CirclePoints + 1);
    [ShadowCentre] + GroundShadowRim(radius, sin, cos, CirclePoints + 1)
  }

  lemma {:induction false} WallShadowRimFlat(radius: real, sin: real -> real, cos: real -> real, n: nat)
    ensures |WallShadowRim(radius, sin, cos, n)| == n
    ensures forall k :: 0 <= k < n ==>
      WallShadowRim(radius, sin, cos, n)[k].z == 0.0 && WallShadowRim(radius, sin, cos, n)[k].w == 1.0
  {
    if n > 0 {
      WallShadowRimFlat(radius, sin, cos, n - 1);
    }
  }

  lemma {:induction false} GroundShadowRimFlat(radius: real, sin: real -> real, cos: real -> real, n: nat)
    ensures |GroundShadowRim(radius, sin, cos, n)| == n
    ensures forall k :: 0 <= k < n ==>
      GroundShadowRim(radius, sin, cos, n)[k].y == 0.0 && GroundShadowRim(radius, sin, cos, n)[k].w == 1.0
  {
    if n > 0 {
      GroundShadowRimFlat(radius, sin, cos, n - 1);
    }
  }

  /**
   * The indices that init's builder chain appends, surface by surface, with
   * each builder's base being the vertex count before it.
   */
  function SceneIndices(): seq<nat>
  {
    CellIndices(0, GridPoints, GridCells)
    + CellIndices(GridVertexCount, GridPoints, GridCells)
    + CellIndices(2 * GridVertexCount, ArcPoints, Squares + 1)
    + FanIndices(2 * GridVertexCount + SphereVertexCount, CirclePoints)
    + FanIndices(2 * GridVertexCount + SphereVertexCount + ShadowVertexCount, CirclePoints)
  }

  /** Positions `from` .. `to` - 1 of `ix` all reference vertices in [lo, hi]. */
  ghost predicate IndicesWithin(ix: seq<nat>, from: nat, to: nat, lo: int, hi: int)
    requires from <= to <= |ix|
  {
    forall k :: from <= k < to ==> lo <= ix[k] <= hi
  }

  /**
   * The scene's index buffer has 5400 + 5400 + 1848 + 66 + 66 entries, and each
   * surface's slice references only that surface's own vertices.
   */
  lemma {:induction false} SceneIndicesBySurface()
    ensures |SceneIndices()| == 12780
    ensures IndicesWithin(SceneIndices(), 0, 5400, 0, 960)
    ensures IndicesWithin(SceneIndices(), 5400, 10800, 961, 1921)
    ensures IndicesWithin(SceneIndices(), 10800, 12648, 1922, 2266)
    ensures IndicesWithin(SceneIndices(), 12648, 12714, 2268, 2290)
    ensures IndicesWithin(SceneIndices(), 12714, 12780, 2292, 2314)
    ensures forall k :: 0 <= k < |SceneIndices()| ==> SceneIndices()[k] < 2315
  {
    var g := CellIndices(0, GridPoints, GridCells);
    var w := CellIndices(GridVertexCount, GridPoints, GridCells);
    var s := CellIndices(2 * GridVertexCount, ArcPoints, Squares + 1);
    var gs := FanIndices(2 * GridVertexCount + SphereVertexCount, CirclePoints);
    var ws := FanIndices(2 * GridVertexCount + SphereVertexCount + ShadowVertexCount, CirclePoints);
    GridIndexCount(0, GridPoints, GridPoints - 1);
    GridIndicesInRange(0, GridPoints, GridPoints - 1);
    GridIndexCount(GridVertexCount, GridPoints, GridPoints - 1);
    GridIndicesInRange(GridVertexCount, GridPoints, GridPoints - 1);
    GridIndexCount(2 * GridVertexCount, ArcPoints, CirclePoints);
    GridIndicesInRange(2 * GridVertexCount, ArcPoints, CirclePoints);
    var ix := SceneIndices();
    assert |g| == 5400 && |w| == 5400 && |s| == 1848 && |gs| == 66 && |ws| == 66;
    assert ix == g + w + s + gs + ws;
    forall k | 0 <= k < |ix|
      ensures k < 5400 ==> 0 <= ix[k] <= 960
      ensures 5400 <= k < 10800 ==> 961 <= ix[k] <= 1921
      ensures 10800 <= k < 12648 ==> 1922 <= ix[k] <= 2266
      ensures 12648 <= k < 12714 ==> 2268 <= ix[k] <= 2290
      ensures 12714 <= k ==> 2292 <= ix[k] <= 2314
    {
      if k < 5400 {
        assert ix[k] == g[k];
      } else if k < 10800 {
        assert ix[k] == w[k - 5400];
      } else if k < 12648 {
        assert ix[k] == s[k - 10800];
      } else if k < 12714 {
        assert ix[k] == gs[k - 12648];
      } else {
        assert ix[k] == ws[k - 12714];
      }
    }
  }

  /** The three shared buffers of the scene. */
  class MeshBuffers
  {
    var vertices: seq<Vec4>
    var normals: seq<Vec3>
    var indices: seq<nat>

    /** The buffers are empty at program start. */
    constructor ()
      ensures vertices == [] && normals == [] && indices == []
    {
      vertices, normals, indices := [], [], [];
    }

    /** The nested vertex loop of a grid: rows × cols vertices, each with its normal. */
    method AppendGrid(rows: nat, cols: nat, f: (int, int) -> Vec4, normal: Vec4 -> Vec3)
      modifies this
      ensures vertices == old(vertices) + RowMajor(rows, cols, f)
      ensures normals == old(normals) + Normals(RowMajor(rows, cols, f), normal)
      ensures indices == old(indices)
    {
      var i := 0;
      while i < rows
        invariant 0 <= i <= rows
        invariant vertices == old(vertices) + RowMajor(i, cols, f)
        invariant normals == old(normals) + Normals(RowMajor(i, cols, f), normal)
        invariant indices == old(indices)
      {
        var j := 0;
        while j < cols
          invariant 0 <= j <= cols
          invariant vertices == old(vertices) + (RowMajor(i, cols, f) + Row(i, j, f))
          invariant normals == old(normals) + Normals(RowMajor(i, cols, f) + Row(i, j, f), normal)
          invariant indices == old(indices)
        {
          var v := f(i, j);
          NormalsAppend(RowMajor(i, cols, f) + Row(i, j, f), v, normal);
          assert Row(i, j, f) + [v] == Row(i, j + 1, f);
          vertices := vertices + [v];
          normals := normals + [normal(v)];
          j := j + 1;
        }
        i := i + 1;
      }
    }

    /**
     * The index loop of a grid or of the sphere: for i < n, every cell not in the
     * last column pushes a right and a left triangle.
     */
    method AppendCells(lastIndex: nat, cols: nat, n: nat)
      requires cols > 0
      modifies this
      ensures indices == old(indices) + CellIndices(lastIndex, cols, n)
      ensures vertices == old(vertices) && normals == old(normals)
    {
      var i := 0;
      while i < n
        invariant 0 <= i <= n
        invariant indices == old(indices) + CellIndices(lastIndex, cols, i)
        invariant vertices == old(vertices) && normals == old(normals)
      {
        if i % cols != cols - 1 {
          // the cell's two halves: (i, i+cols+1, i+1) and (i, i+cols, i+cols+1)
          indices := indices + [lastIndex + i, lastIndex + i + cols + 1, lastIndex + i + 1];
          indices := indices + [lastIndex + i, lastIndex + i + cols, lastIndex + i + cols + 1];
        }
        i := i + 1;
      }
    }

    /**
     * makeGround: 31 × 31 vertices in the z = 0 plane with normal (0, -1, 0), then
     * two triangles for each of the 900 cells not in the last column.
     */
    method MakeGround(lastIndex: nat) returns (end: nat)
      modifies this
      ensures vertices == old(vertices) + GroundVertices()
      ensures normals == old(normals) + Normals(GroundVertices(), GroundNormal)
      ensures indices == old(indices) + CellIndices(lastIndex, GridPoints, GridCells)
      ensures end == |vertices| == |old(vertices)| + 961
      ensures |indices| == |old(indices)| + 5400
      ensures forall k :: |old(vertices)| <= k < |vertices| ==> vertices[k].z == 0.0 && vertices[k].w == 1.0
      ensures forall k :: |old(normals)| <= k < |normals| ==> normals[k] == Vec3(0.0, -1.0, 0.0)
      ensures forall k :: |old(indices)| <= k < |indices| ==> lastIndex <= indices[k] <= lastIndex + 960
      ensures lastIndex == |old(vertices)| ==>
        forall k :: |old(indices)| <= k < |indices| ==> lastIndex <= indices[k] < end
    {
      AppendGrid(GridPoints, GridPoints, GroundVertex, GroundNormal);
      AppendCells(lastIndex, GridPoints, GridCells);
      end := |vertices|;
      GridIndexCount(lastIndex, GridPoints, GridPoints - 1);
      GridIndicesInRange(lastIndex, GridPoints, GridPoints - 1);
      ConcatIndexing(old(indices), CellIndices(lastIndex, GridPoints, GridCells), lastIndex, lastIndex + 960);
    }

    /**
     * makeWall: 31 × 31 vertices in the y = 2 plane with normal (0, 0, 1), triangulated
     * like the ground.
     */
    method MakeWall(lastIndex: nat) returns (end: nat)
      modifies this
      ensures vertices == old(vertices) + WallVertices()
      ensures normals == old(normals) + Normals(WallVertices(), WallNormal)
      ensures indices == old(indices) + CellIndices(lastIndex, GridPoints, GridCells)
      ensures end == |vertices| == |old(vertices)| + 961
      ensures |indices| == |old(indices)| + 5400
      ensures forall k :: |old(vertices)| <= k < |vertices| ==> vertices[k].y == WallY && vertices[k].w == 1.0
      ensures forall k :: |old(normals)| <= k < |normals| ==> normals[k] == Vec3(0.0, 0.0, 1.0)
      ensures forall k :: |old(indices)| <= k < |indices| ==> lastIndex <= indices[k] <= lastIndex + 960
      ensures lastIndex == |old(vertices)| ==>
        forall k :: |old(indices)| <= k < |indices| ==> lastIndex <= indices[k] < end
    {
      AppendGrid(GridPoints, GridPoints, WallVertex, WallNormal);
      AppendCells(lastIndex, GridPoints, GridCells);
      end := |vertices|;
      GridIndexCount(lastIndex, GridPoints, GridPoints - 1);
      GridIndicesInRange(lastIndex, GridPoints, GridPoints - 1);
      ConcatIndexing(old(indices), CellIndices(lastIndex, GridPoints, GridCells), lastIndex, lastIndex + 960);
    }

    /**
     * makeSphere: 23 meridians of 15 points each, each normal the normalised position,
     * then two triangles for each of the 308 cells i <= 329 with i % 15 != 14.
     * `normalize` stands for glm::normalize.
     */
    method MakeSphere(lastIndex: nat, radius: real, sin: real -> real, cos: real -> real,
                      normalize: Vec3 -> Vec3) returns (end: nat)
      modifies this
      ensures vertices == old(vertices) + SphereVertices(radius, sin, cos)
      ensures indices == old(indices) + CellIndices(lastIndex, ArcPoints, Squares + 1)
      ensures end == |vertices| == |old(vertices)| + 345
      ensures |indices| == |old(indices)| + 1848
      ensures normals == old(normals) + Normals(SphereVertices(radius, sin, cos), SphereNormal(normalize))
      ensures |normals| == |old(normals)| + 345
      ensures forall k :: |old(normals)| <= k < |normals| ==>
        normals[k] == normalize(vertices[k - |old(normals)| + |old(vertices)|].Xyz())
      ensures forall k :: |old(indices)| <= k < |indices| ==> lastIndex <= indices[k] <= lastIndex + 344
      ensures lastIndex == |old(vertices)| ==>
        forall k :: |old(indices)| <= k < |indices| ==> lastIndex <= indices[k] < end
    {
      AppendGrid(CirclePoints + 1, ArcPoints, SphereVertex(radius, CirclePoints, ArcPoints, sin, cos),
                 SphereNormal(normalize));
      AppendCells(lastIndex, ArcPoints, Squares + 1);
      end := |vertices|;
      GridIndexCount(lastIndex, ArcPoints, CirclePoints);
      GridIndicesInRange(lastIndex, ArcPoints, CirclePoints);
      ConcatIndexing(old(indices), CellIndices(lastIndex, ArcPoints, Squares + 1), lastIndex, lastIndex + 344);
    }

    /** The fan loop of both shadow builders: triangle i is (lastIndex+1, lastIndex+1+i, lastIndex+1+i+1). */
    method AppendFan(lastIndex: nat, n: nat)
      modifies this
      ensures indices == old(indices) + FanIndices(lastIndex, n)
      ensures vertices == old(vertices) && normals == old(normals)
    {
      var i := 0;
      while i < n
        invariant 0 <= i <= n
        invariant indices == old(indices) + FanIndices(lastIndex, i)
        invariant vertices == old(vertices) && normals == old(normals)
      {
        indices := indices + [lastIndex + 1, lastIndex + 1 + i, lastIndex + 1 + i + 1];
        i := i + 1;
      }
    }

    /** The rim loop of makeWallShadow: rim points 0 .. 22, each pushed as (x, y, 0, 1). */
    method AppendWallRim(radius: real, sin: real -> real, cos: real -> real)
      modifies this
      ensures vertices == old(vertices) + WallShadowRim(radius, sin, cos, CirclePoints + 1)
      ensures normals == old(normals) && indices == old(indices)
    {
      var i := 0;
      while i <= CirclePoints
        invariant 0 <= i <= CirclePoints + 1
        invariant vertices == old(vertices) + WallShadowRim(radius, sin, cos, i)
        invariant normals == old(normals) && indices == old(indices)
      {
        var (x, y) := RimPoint(radius, sin, cos, i);
        vertices := vertices + [Vec4(x, y, 0.0, 1.0)];
        i := i + 1;
      }
    }

    /** The rim loop of makeGroundShadow: rim points 0 .. 22, each pushed as (x, 0, y, 1). */
    method AppendGroundRim(radius: real, sin: real -> real, cos: real -> real)
      modifies this
      ensures vertices == old(vertices) + GroundShadowRim(radius, sin, cos, CirclePoints + 1)
      ensures normals == old(normals) && indices == old(indices)
    {
      var i := 0;
      while i <= CirclePoints
        invariant 0 <= i <= CirclePoints + 1
        invariant vertices == old(vertices) + GroundShadowRim(radius, sin, cos, i)
        invariant normals == old(normals) && indices == old(indices)
      {
        var (x, y) := RimPoint(radius, sin, cos, i);
        vertices := vertices + [Vec4(x, 0.0, y, 1.0)];
        i := i + 1;
      }
    }

    /**
     * makeWallShadow: the centre, 23 rim points in the z = 0 plane, no normals,
     * and a fan of 22 triangles pivoting on lastIndex + 1.
     */
    method MakeWallShadow(lastIndex: nat, radius: real, sin: real -> real, cos: real -> real)
      returns (end: nat)
      modifies this
      ensures vertices == old(vertices) + WallShadowVertices(radius, sin, cos)
      ensures normals == old(normals)
      ensures indices == old(indices) + FanIndices(lastIndex, CirclePoints)
      ensures end == |vertices| == |old(vertices)| + 24
      ensures forall k :: |old(vertices)| <= k < |vertices| ==> vertices[k].z == 0.0 && vertices[k].w == 1.0
      ensures forall k :: |old(indices)| <= k < |indices| ==>
        lastIndex + 1 <= indices[k] <= lastIndex + 23
    {
      vertices := vertices + [ShadowCentre];
      AppendWallRim(radius, sin, cos);
      assert vertices == old(vertices) + WallShadowVertices(radius, sin, cos);
      AppendFan(lastIndex, CirclePoints);
      end := |vertices|;
      ConcatIndexing(old(indices), FanIndices(lastIndex, CirclePoints), lastIndex + 1, lastIndex + 23);
    }

    /**
     * makeGroundShadow: as makeWallShadow, but each rim point is pushed as (x, 0, y, 1),
     * so the disc lies in the y = 0 plane.
     */
    method MakeGroundShadow(lastIndex: nat, radius: real, sin: real -> real, cos: real -> real)
      returns (end: nat)
      modifies this
      ensures vertices == old(vertices) + GroundShadowVertices(radius, sin, cos)
      ensures normals == old(normals)
      ensures indices == old(indices) + FanIndices(lastIndex, CirclePoints)
      ensures end == |vertices| == |old(vertices)| + 24
      ensures forall k :: |old(vertices)| <= k < |vertices| ==> vertices[k].y == 0.0 && vertices[k].w == 1.0
      ensures forall k :: |old(indices)| <= k < |indices| ==>
        lastIndex + 1 <= indices[k] <= lastIndex + 23
    {
      vertices := vertices + [ShadowCentre];
      AppendGroundRim(radius, sin, cos);
      assert vertices == old(vertices) + GroundShadowVertices(radius, sin, cos);
      AppendFan(lastIndex, CirclePoints);
      end := |vertices|;
      ConcatIndexing(old(indices), FanIndices(lastIndex, CirclePoints), lastIndex + 1, lastIndex + 23);
    }

    /** The first half of init: ground, wall and sphere, each starting where the previous one ends. */
    method MakeSurfaces(radius: real, sin: real -> real, cos: real -> real, normalize: Vec3 -> Vec3)
      returns (endOfGround: nat, endOfWall: nat, endOfSphere: nat)
      requires vertices == [] && normals == [] && indices == []
      modifies this
      ensures endOfGround == 961 && endOfWall == 1922 && endOfSphere == 2267
      ensures vertices == GroundVertices() + WallVertices() + SphereVertices(radius, sin, cos)
      ensures normals == Normals(GroundVertices(), GroundNormal) + Normals(WallVertices(), WallNormal)
                         + Normals(SphereVertices(radius, sin, cos), SphereNormal(normalize))
      ensures indices == CellIndices(0, GridPoints, GridCells) + CellIndices(GridVertexCount, GridPoints, GridCells)
                         + CellIndices(2 * GridVertexCount, ArcPoints, Squares + 1)
    {
      endOfGround := MakeGround(0);
      assert vertices == GroundVertices() && normals == Normals(GroundVertices(), GroundNormal);
      assert indices == CellIndices(0, GridPoints, GridCells);
      endOfWall := MakeWall(endOfGround);
      assert |vertices| == |normals| == 2 * GridVertexCount;
      endOfSphere := MakeSphere(endOfWall, radius, sin, cos, normalize);
    }

    /** The second half of init: both shadow discs, after the 2267 surface vertices. */
    method MakeShadows(radius: real, sin: real -> real, cos: real -> real)
      returns (endOfGroundShadow: nat, endOfWallShadow: nat)
      requires |vertices| == 2 * GridVertexCount + SphereVertexCount
      modifies this
      ensures endOfGroundShadow == 2291 && endOfWallShadow == 2315
      ensures vertices == old(vertices) + GroundShadowVertices(radius, sin, cos) + WallShadowVertices(radius, sin, cos)
      ensures normals == old(normals)
      ensures indices == old(indices) + FanIndices(2 * GridVertexCount + SphereVertexCount, CirclePoints)
                         + FanIndices(2 * GridVertexCount + SphereVertexCount + ShadowVertexCount, CirclePoints)
    {
      endOfGroundShadow := MakeGroundShadow(|vertices|, radius, sin, cos);
      endOfWallShadow := MakeWallShadow(endOfGroundShadow, radius, sin, cos);
    }

    /**
     * The builder chain of init: each builder starts where the previous one's
     * vertices end, so every surface's triangles use only its own vertices.
     */
    method Init(radius: real, sin: real -> real, cos: real -> real, normalize: Vec3 -> Vec3)
      returns (endOfGround: nat, endOfWall: nat, endOfSphere: nat, endOfGroundShadow: nat, endOfWallShadow: nat)
      requires vertices == [] && normals == [] && indices == []
      modifies this
      ensures endOfGround == 961 && endOfWall == 1922 && endOfSphere == 2267
      ensures endOfGroundShadow == 2291 && endOfWallShadow == 2315
      ensures vertices == GroundVertices() + WallVertices() + SphereVertices(radius, sin, cos)
                          + GroundShadowVertices(radius, sin, cos) + WallShadowVertices(radius, sin, cos)
      ensures normals == Normals(GroundVertices(), GroundNormal) + Normals(WallVertices(), WallNormal)
                         + Normals(SphereVertices(radius, sin, cos), SphereNormal(normalize))
      ensures |vertices| == endOfWallShadow && |normals| == endOfSphere
      ensures indices == SceneIndices()
      ensures forall k :: 0 <= k < |indices| ==> indices[k] < |vertices|
    {
      endOfGround, endOfWall, endOfSphere := MakeSurfaces(radius, sin, cos, normalize);
      endOfGroundShadow, endOfWallShadow := MakeShadows(radius, sin, cos);
      SceneIndicesBySurface();
    }
  }

  /** Appending a block whose entries lie in [lo, hi] keeps them there at their new positions. */
  lemma ConcatIndexing(front: seq<nat>, block: seq<nat>, lo: int, hi: int)
    requires forall k :: 0 <= k < |block| ==> lo <= block[k] <= hi
    ensures forall k :: |front| <= k < |front + block| ==> lo <= (front + block)[k] <= hi
  {
    forall k | |front| <= k < |front + block|
      ensures lo <= (front + block)[k] <= hi
    {
      assert (front + block)[k] == block[k - |front|];
    }
  }
}
