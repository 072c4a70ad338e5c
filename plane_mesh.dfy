/** The flat ocean plane the generator meshes on start-up: a square of side
    `size` centred on the origin, cut into `resolution` × `resolution` cells,
    each cell two triangles. */
module PlaneMesh {
  import opened UnityMath

  /** Row-major slot of grid point (x, y); a row holds `resolution + 1` points. */
  function VertexSlot(resolution: int, x: int, y: int): int {
    y * (resolution + 1) + x
  }

  /** Running index of cell (x, y) among the cells that carry triangles. */
  function CellSlot(resolution: int, x: int, y: int): int {
    y * resolution + x
  }

  /** Position of grid point (x, y): `size * (x / resolution - 0.5)` across and along. */
  function PlaneVertex(size: int, resolution: int, x: int, y: int): Vec3
    requires resolution >= 1
  {
    var increment := 1.0 / resolution as real;
    Vec3(size as real * (x as real * increment - 0.5), 0.0, size as real * (y as real * increment - 0.5))
  }

  /** Texture coordinate of grid point (x, y). */
  function PlaneUv(resolution: int, x: int, y: int): Vec2
    requires resolution >= 1
  {
    var increment := 1.0 / resolution as real;
    Vec2(x as real * increment, y as real * increment)
  }

  /** The six indices the cell whose lower corner is slot `v` contributes:
      triangles (v, v+r+1, v+r+2) and (v, v+r+2, v+1). */
  function QuadCorners(resolution: int, v: int): seq<int> {
    [v, v + resolution + 1, v + resolution + 2, v, v + resolution + 2, v + 1]
  }

  /** What triangle slot `t` holds: corner `t % 6` of the `t / 6`-th cell, cells row by row. */
  function TriangleCorner(resolution: int, t: int): int
    requires resolution >= 1 && t >= 0
  {
    var cell := t / 6;
    QuadCorners(resolution, VertexSlot(resolution, cell % resolution, cell / resolution))[t % 6]
  }

  /** The vertex a slot holds, found from the slot alone. */
  function VertexAt(size: int, resolution: int, i: int): Vec3
    requires resolution >= 1
  {
    PlaneVertex(size, resolution, i % (resolution + 1), i / (resolution + 1))
  }

  function UvAt(resolution: int, i: int): Vec2
    requires resolution >= 1
  {
    PlaneUv(resolution, i % (resolution + 1), i / (resolution + 1))
  }

  /** Division and remainder undo a row-major slot. */
  lemma RowMajor(x: int, y: int, n: int)
    requires 0 <= x < n && 0 <= y
    ensures (y * n + x) / n == y && (y * n + x) % n == x
  {
    ModUnique(y * n + x, y, x, n);
  }

  /** Grid point (x, y) is the point its own slot names, so each slot is written once. */
  lemma VertexSlotCoordinates(resolution: int, x: int, y: int)
    requires resolution >= 1 && 0 <= x <= resolution && 0 <= y
    ensures VertexSlot(resolution, x, y) % (resolution + 1) == x
    ensures VertexSlot(resolution, x, y) / (resolution + 1) == y
  {
    RowMajor(x, y, resolution + 1);
  }

  /** The slots of the grid points are exactly 0 .. (resolution+1)² - 1. */
  lemma VertexSlotsCover(resolution: int, i: int)
    requires resolution >= 1 && 0 <= i < (resolution + 1) * (resolution + 1)
    ensures 0 <= i % (resolution + 1) <= resolution && 0 <= i / (resolution + 1) <= resolution
    ensures VertexSlot(resolution, i % (resolution + 1), i / (resolution + 1)) == i
  {
    var n := resolution + 1;
    var q := i / n;
    if q > resolution {
      MulMonoInt(n, n, q);
      assert false;
    }
  }

  /** The six slots from `6 * CellSlot(x, y)` on hold the corners of cell (x, y). */
  lemma TriangleCornersOfCell(resolution: int, x: int, y: int)
    requires resolution >= 1 && 0 <= x < resolution && 0 <= y
    ensures forall t :: 6 * CellSlot(resolution, x, y) <= t < 6 * CellSlot(resolution, x, y) + 6 ==>
      TriangleCorner(resolution, t) == QuadCorners(resolution, VertexSlot(resolution, x, y))[t - 6 * CellSlot(resolution, x, y)]
  {
    var c := CellSlot(resolution, x, y);
    RowMajor(x, y, resolution);
    forall t | 6 * c <= t < 6 * c + 6
      ensures TriangleCorner(resolution, t) == QuadCorners(resolution, VertexSlot(resolution, x, y))[t - 6 * c]
    {
      RowMajor(t - 6 * c, c, 6);
      assert c * 6 + (t - 6 * c) == t;
    }
  }

  /** A cell inside the grid has its six slots inside the triangle array. */
  lemma CellSlotBound(resolution: int, x: int, y: int)
    requires 0 <= x < resolution && 0 <= y < resolution
    ensures 0 <= CellSlot(resolution, x, y) < resolution * resolution
  {
    MulMonoInt(resolution, y, resolution - 1);
  }

  /** Every triangle slot names an existing vertex. */
  lemma TriangleCornerInRange(resolution: int, t: int)
    requires resolution >= 1 && 0 <= t < resolution * resolution * 6
    ensures 0 <= TriangleCorner(resolution, t) < (resolution + 1) * (resolution + 1)
  {
    var cell := t / 6;
    CellRow(resolution, cell);
    FarCornerBound(resolution, cell % resolution, cell / resolution);
  }

  /** A cell number below resolution² lies in one of the first `resolution` rows. */
  lemma CellRow(resolution: int, cell: int)
    requires resolution >= 1 && 0 <= cell < resolution * resolution
    ensures 0 <= cell / resolution < resolution
  {
    if cell / resolution >= resolution {
      MulMonoInt(resolution, resolution, cell / resolution);
      assert false;
    }
  }

  /** The far corner of an inside cell is the last vertex at most. */
  lemma FarCornerBound(resolution: int, x: int, y: int)
    requires 0 <= x < resolution && 0 <= y < resolution
    ensures VertexSlot(resolution, x, y) + resolution + 2 < (resolution + 1) * (resolution + 1)
  {
    MulMonoInt(resolution + 1, y, resolution - 1);
    assert (resolution - 1) * (resolution + 1) == (resolution + 1) * (resolution + 1) - 2 * resolution - 2;
  }

  /** Both triangles of a cell use only the cell's own four corners. */
  lemma QuadUsesCellCorners(resolution: int, x: int, y: int, k: int)
    requires 0 <= k < 6
    ensures QuadCorners(resolution, VertexSlot(resolution, x, y))[k] in
      {VertexSlot(resolution, x, y), VertexSlot(resolution, x + 1, y),
       VertexSlot(resolution, x, y + 1), VertexSlot(resolution, x + 1, y + 1)}
  {
  }

  /** Each texture coordinate lies in the unit square. */
  lemma UvInUnitSquare(resolution: int, x: int, y: int)
    requires resolution >= 1 && 0 <= x <= resolution && 0 <= y <= resolution
    ensures 0.0 <= PlaneUv(resolution, x, y).x <= 1.0
    ensures 0.0 <= PlaneUv(resolution, x, y).y <= 1.0
  {
    UnitStep(resolution, x);
    UnitStep(resolution, y);
  }

  lemma UnitStep(resolution: int, x: int)
    requires resolution >= 1 && 0 <= x <= resolution
    ensures 0.0 <= x as real * (1.0 / resolution as real) <= 1.0
  {
    var n := resolution as real;
    var k := 1.0 / n;
    assert k * n == 1.0;
    MulMono(k, x as real, n);
    MulMono(k, 0.0, x as real);
  }

  /** Cells of whole rows before row `y`, then cells of row `y` left of `x`. */
  function CellsBefore(resolution: int, x: int, y: int): int {
    if y < resolution then CellSlot(resolution, MinInt(x, resolution), y) else resolution * resolution
  }

  /** Finishing row `y` leaves both counters where row `y + 1` starts them. */
  lemma NextRow(resolution: int, y: int)
    requires resolution >= 1 && 0 <= y <= resolution
    ensures VertexSlot(resolution, 0, y + 1) == VertexSlot(resolution, resolution + 1, y)
    ensures CellsBefore(resolution, 0, y + 1) == CellsBefore(resolution, resolution + 1, y)
  {
    assert (y + 1) * (resolution + 1) == y * (resolution + 1) + resolution + 1;
    assert (y + 1) * resolution == y * resolution + resolution;
  }

  /** A grid point's slot lies inside the vertex array. */
  lemma VertexSlotBound(resolution: int, x: int, y: int)
    requires resolution >= 1 && 0 <= x <= resolution && 0 <= y <= resolution
    ensures 0 <= VertexSlot(resolution, x, y) < (resolution + 1) * (resolution + 1)
  {
    MulMonoInt(resolution + 1, y, resolution);
  }

  /** Fills the vertex, uv and triangle arrays of the plane mesh, with the
      running vertex and triangle counters of the generator. */
  method GeneratePlane(size: int, resolution: int) returns (vertices: array<Vec3>, uvs: array<Vec2>, triangles: array<int>)
    requires resolution >= 1
    ensures vertices.Length == (resolution + 1) * (resolution + 1) && uvs.Length == vertices.Length
    ensures triangles.Length == resolution * resolution * 6
    ensures forall i :: 0 <= i < vertices.Length ==> vertices[i] == VertexAt(size, resolution, i)
    ensures forall i :: 0 <= i < uvs.Length ==> uvs[i] == UvAt(resolution, i)
    ensures forall t :: 0 <= t < triangles.Length ==> triangles[t] == TriangleCorner(resolution, t)
  {
    vertices := new Vec3[(resolution + 1) * (resolution + 1)];
    uvs := new Vec2[vertices.Length];
    triangles := new int[resolution * resolution * 6];
    var vertIndex := 0;
    var triIndex := 0;
    var y := 0;
    while y <= resolution
      invariant 0 <= y <= resolution + 1
      invariant vertIndex == VertexSlot(resolution, 0, y)
      invariant triIndex == 6 * CellsBefore(resolution, 0, y)
      invariant vertIndex <= vertices.Length && triIndex <= triangles.Length
      invariant forall i :: 0 <= i < vertIndex ==> vertices[i] == VertexAt(size, resolution, i)
      invariant forall i :: 0 <= i < vertIndex ==> uvs[i] == UvAt(resolution, i)
      invariant forall t :: 0 <= t < triIndex ==> triangles[t] == TriangleCorner(resolution, t)
    {
      vertIndex, triIndex := GenerateRow(vertices, uvs, triangles, size, resolution, y, vertIndex, triIndex);
      NextRow(resolution, y);
      y := y + 1;
    }
    assert vertIndex == vertices.Length && triIndex == triangles.Length;
  }

  /** The inner loop of the generator: the points of row `y`, and the cells
      above them when the row is not the last. */
  method GenerateRow(vertices: array<Vec3>, uvs: array<Vec2>, triangles: array<int>, size: int, resolution: int, y: int,
                     vertStart: int, triStart: int) returns (vertIndex: int, triIndex: int)
    requires resolution >= 1 && 0 <= y <= resolution
    requires vertices.Length == (resolution + 1) * (resolution + 1) && uvs.Length == vertices.Length
    requires triangles.Length == resolution * resolution * 6
    requires vertStart == VertexSlot(resolution, 0, y) && triStart == 6 * CellsBefore(resolution, 0, y)
    requires vertStart <= vertices.Length && triStart <= triangles.Length
    requires forall i :: 0 <= i < vertStart ==> vertices[i] == VertexAt(size, resolution, i)
    requires forall i :: 0 <= i < vertStart ==> uvs[i] == UvAt(resolution, i)
    requires forall t :: 0 <= t < triStart ==> triangles[t] == TriangleCorner(resolution, t)
    modifies vertices, uvs, triangles
    ensures vertIndex == VertexSlot(resolution, resolution + 1, y) && triIndex == 6 * CellsBefore(resolution, resolution + 1, y)
    ensures vertIndex <= vertices.Length && triIndex <= triangles.Length
    ensures forall i :: 0 <= i < vertIndex ==> vertices[i] == VertexAt(size, resolution, i)
    ensures forall i :: 0 <= i < vertIndex ==> uvs[i] == UvAt(resolution, i)
    ensures forall t :: 0 <= t < triIndex ==> triangles[t] == TriangleCorner(resolution, t)
  {
    vertIndex, triIndex := vertStart, triStart;
    var x := 0;
    while x <= resolution
      invariant 0 <= x <= resolution + 1
      invariant vertIndex == VertexSlot(resolution, x, y)
      invariant triIndex == 6 * CellsBefore(resolution, x, y)
      invariant vertIndex <= vertices.Length && triIndex <= triangles.Length
      invariant forall i :: 0 <= i < vertIndex ==> vertices[i] == VertexAt(size, resolution, i)
      invariant forall i :: 0 <= i < vertIndex ==> uvs[i] == UvAt(resolution, i)
      invariant forall t :: 0 <= t < triIndex ==> triangles[t] == TriangleCorner(resolution, t)
    {
      VertexSlotCoordinates(resolution, x, y);
      VertexSlotBound(resolution, x, y);
      vertices[vertIndex] := PlaneVertex(size, resolution, x, y);
      uvs[vertIndex] := PlaneUv(resolution, x, y);
      if x != resolution && y != resolution {
        CellSlotBound(resolution, x, y);
        TriangleCornersOfCell(resolution, x, y);
        WriteQuad(triangles, resolution, triIndex, vertIndex);
        triIndex := triIndex + 6;
      }
      vertIndex := vertIndex + 1;
      x := x + 1;
    }
  }

  /** The six writes of one cell, at the running triangle index. */
  method WriteQuad(triangles: array<int>, resolution: int, triIndex: int, vertIndex: int)
    requires 0 <= triIndex && triIndex + 6 <= triangles.Length
    modifies triangles
    ensures forall t :: 0 <= t < triangles.Length ==>
      triangles[t] == (if triIndex <= t < triIndex + 6 then QuadCorners(resolution, vertIndex)[t - triIndex] else old(triangles[t]))
  {
    triangles[triIndex] := vertIndex;
    triangles[triIndex + 1] := vertIndex + resolution + 1;
    triangles[triIndex + 2] := vertIndex + resolution + 2;
    triangles[triIndex + 3] := vertIndex;
    triangles[triIndex + 4] := vertIndex + resolution + 2;
    triangles[triIndex + 5] := vertIndex + 1;
  }
}
