/** The ring layout of the ocean surface: ring r is a (2r+1) × (2r+1) grid of
    tiles of which only the border cells are built, and every tile carries the
    same horizontal grid mesh. */
module RingGeometry {
  import opened UnityMath

  // ---------------------------------------------------------------------------
  // The horizontal grid mesh

  /** Slot of grid point (w, h): `h` rows of `width + 1` points come first. */
  function GridSlot(width: int, w: int, h: int): int {
    h * (width + 1) + w
  }

  /** Running index of cell (w, h): cells are emitted column by column. */
  function GridCell(height: int, w: int, h: int): int {
    w * height + h
  }

  /** Position of grid point (w, h), shifted so the grid is centred on the origin;
      a horizontal grid spans x and z, an upright one x and y. */
  function GridVertex(width: int, height: int, unitLength: real, isHorizontal: bool, w: int, h: int): Vec3 {
    var halfWidth := width as real * unitLength / 2.0;
    var halfHeight := height as real * unitLength / 2.0;
    var across := w as real * unitLength - halfWidth;
    var along := h as real * unitLength - halfHeight;
    if isHorizontal then Vec3(across, 0.0, along) else Vec3(across, along, 0.0)
  }

  /** Texture coordinate of grid point (w, h). */
  function GridUv(width: int, height: int, w: int, h: int): Vec2
    requires width >= 1 && height >= 1
  {
    Vec2(w as real / width as real, h as real / height as real)
  }

  /** The six indices of the cell whose first corner is slot `v`:
      triangles (v, v+W, v+W+1) and (v, v+W+1, v+1), with W = width + 1. */
  function GridCorners(width: int, v: int): seq<int> {
    [v, v + width + 1, v + width + 2, v, v + width + 2, v + 1]
  }

  /** What triangle slot `t` holds: corner `t % 6` of the `t / 6`-th cell, cells column by column. */
  function GridTriangleCorner(width: int, height: int, t: int): int
    requires height >= 1 && t >= 0
  {
    var cell := t / 6;
    GridCorners(width, GridSlot(width, cell / height, cell % height))[t % 6]
  }

  /** The vertex a slot holds, found from the slot alone. */
  function GridVertexAt(width: int, height: int, unitLength: real, isHorizontal: bool, i: int): Vec3
    requires width >= 0
  {
    GridVertex(width, height, unitLength, isHorizontal, i % (width + 1), i / (width + 1))
  }

  function GridUvAt(width: int, height: int, i: int): Vec2
    requires width >= 1 && height >= 1
  {
    GridUv(width, height, i % (width + 1), i / (width + 1))
  }

  /** Division and remainder undo a row-major slot. */
  lemma SlotCoordinates(x: int, y: int, n: int)
    requires 0 <= x < n && 0 <= y
    ensures (y * n + x) / n == y && (y * n + x) % n == x
  {
    ModUnique(y * n + x, y, x, n);
  }

  /** The slots of the grid points are exactly 0 .. (width+1)(height+1) - 1. */
  lemma GridSlotsCover(width: int, height: int, i: int)
    requires width >= 0 && height >= 0 && 0 <= i < (width + 1) * (height + 1)
    ensures 0 <= i % (width + 1) <= width && 0 <= i / (width + 1) <= height
    ensures GridSlot(width, i % (width + 1), i / (width + 1)) == i
  {
    var q := i / (width + 1);
    if q > height {
      MulMonoInt(width + 1, height + 1, q);
      assert false;
    }
  }

  /** The first and the last grid point mirror each other through the origin. */
  lemma GridCentred(width: int, height: int, unitLength: real, isHorizontal: bool)
    ensures GridVertex(width, height, unitLength, isHorizontal, 0, 0)
         == Neg(GridVertex(width, height, unitLength, isHorizontal, width, height))
  {
  }

  /** Each texture coordinate lies in the unit square, corners at 0 and 1. */
  lemma GridUvInUnitSquare(width: int, height: int, w: int, h: int)
    requires width >= 1 && height >= 1 && 0 <= w <= width && 0 <= h <= height
    ensures 0.0 <= GridUv(width, height, w, h).x <= 1.0 && 0.0 <= GridUv(width, height, w, h).y <= 1.0
    ensures GridUv(width, height, width, height) == Vec2(1.0, 1.0)
  {
    UnitFraction(w, width);
    UnitFraction(h, height);
    assert width as real / width as real == 1.0;
    assert height as real / height as real == 1.0;
  }

  lemma UnitFraction(a: int, n: int)
    requires 1 <= n && 0 <= a <= n
    ensures 0.0 <= a as real / n as real <= 1.0
  {
    var q := a as real / n as real;
    assert q * n as real == a as real;
    if q > 1.0 {
      MulStrict(n as real, 1.0, q);
      assert false;
    }
    if q < 0.0 {
      MulStrict(n as real, q, 0.0);
      assert false;
    }
  }

  /** An inside cell's index lies below the number of cells. */
  lemma GridCellBound(width: int, height: int, w: int, h: int)
    requires 0 <= w < width && 0 <= h < height
    ensures 0 <= GridCell(height, w, h) < width * height
  {
    MulMonoInt(height, w, width - 1);
  }

  /** The far corner of an inside cell is the last vertex at most. */
  lemma FarCornerBound(width: int, height: int, w: int, h: int)
    requires 0 <= w < width && 0 <= h < height
    ensures GridSlot(width, w, h) + width + 2 < (width + 1) * (height + 1)
  {
    MulMonoInt(width + 1, h, height - 1);
    assert (height - 1) * (width + 1) == (width + 1) * (height + 1) - 2 * width - 2;
  }

  /** A grid point's slot lies inside the vertex array. */
  lemma GridSlotBound(width: int, height: int, w: int, h: int)
    requires 0 <= w <= width && 0 <= h <= height
    ensures 0 <= GridSlot(width, w, h) < (width + 1) * (height + 1)
  {
    MulMonoInt(width + 1, h, height);
  }

  /** A cell number below width·height lies in one of the first `width` columns. */
  lemma CellColumn(width: int, height: int, cell: int)
    requires height >= 1 && 0 <= cell < width * height
    ensures 0 <= cell / height < width
  {
    if cell / height >= width {
      MulMonoInt(height, width, cell / height);
      assert false;
    }
  }

  /** Every triangle slot names an existing vertex. */
  lemma GridTriangleCornerInRange(width: int, height: int, t: int)
    requires height >= 1 && 0 <= t < width * height * 2 * 3
    ensures 0 <= GridTriangleCorner(width, height, t) < (width + 1) * (height + 1)
  {
    var cell := t / 6;
    CellColumn(width, height, cell);
    FarCornerBound(width, height, cell / height, cell % height);
  }

  /** The six slots from `6 * GridCell(w, h)` on hold the corners of cell (w, h). */
  lemma GridCornersOfCell(width: int, height: int, w: int, h: int)
    requires 0 <= w && 0 <= h < height
    ensures forall t :: 6 * GridCell(height, w, h) <= t < 6 * GridCell(height, w, h) + 6 ==>
      GridTriangleCorner(width, height, t) == GridCorners(width, GridSlot(width, w, h))[t - 6 * GridCell(height, w, h)]
  {
    var c := GridCell(height, w, h);
    SlotCoordinates(h, w, height);
    forall t | 6 * c <= t < 6 * c + 6
      ensures GridTriangleCorner(width, height, t) == GridCorners(width, GridSlot(width, w, h))[t - 6 * c]
    {
      SlotCoordinates(t - 6 * c, c, 6);
      assert c * 6 + (t - 6 * c) == t;
    }
  }

  /** Cells of whole columns before column `w`, then cells of column `w` below `h`. */
  function CellsBefore(width: int, height: int, w: int, h: int): int {
    if w < width then GridCell(height, w, MinInt(h, height)) else width * height
  }

  /** Slot `i` is filled once column `w` has reached row `h`. */
  predicate Visited(width: int, w: int, h: int, i: int)
    requires width >= 0
  {
    i % (width + 1) < w || (i % (width + 1) == w && i / (width + 1) < h)
  }

  /** Filling slot (w, h) is what moves the frontier one row up the column. */
  lemma VisitStep(width: int, w: int, h: int, i: int)
    requires width >= 0 && 0 <= w <= width && 0 <= h && 0 <= i
    ensures Visited(width, w, h + 1, i) <==> Visited(width, w, h, i) || i == GridSlot(width, w, h)
  {
    SlotCoordinates(w, h, width + 1);
  }

  /** Finishing a column leaves both counters where the next column starts them. */
  lemma NextColumn(width: int, height: int, w: int, i: int)
    requires width >= 0 && height >= 0 && 0 <= w <= width && 0 <= i < (width + 1) * (height + 1)
    ensures Visited(width, w + 1, 0, i) <==> Visited(width, w, height + 1, i)
    ensures CellsBefore(width, height, w + 1, 0) == CellsBefore(width, height, w, height + 1)
  {
    GridSlotsCover(width, height, i);
    assert (w + 1) * height == w * height + height;
  }

  /** Builds the vertex, uv and triangle arrays of a `width` × `height` cell grid
      with cells of side `unitLength`, walking the points column by column with
      a running triangle index. */
  method GenerateHorizontal(width: int, height: int, unitLength: real, isHorizontal: bool)
    returns (vertices: array<Vec3>, uvs: array<Vec2>, triangles: array<int>)
    requires width >= 1 && height >= 1
    ensures vertices.Length == (width + 1) * (height + 1) && uvs.Length == vertices.Length
    ensures triangles.Length == width * height * 2 * 3
    ensures forall i :: 0 <= i < vertices.Length ==> vertices[i] == GridVertexAt(width, height, unitLength, isHorizontal, i)
    ensures forall i :: 0 <= i < uvs.Length ==> uvs[i] == GridUvAt(width, height, i)
    ensures forall t :: 0 <= t < triangles.Length ==> triangles[t] == GridTriangleCorner(width, height, t)
  {
    vertices := new Vec3[(width + 1) * (height + 1)];
    uvs := new Vec2[vertices.Length];
    triangles := new int[width * height * 2 * 3];
    var trisIndex := 0;
    var w := 0;
    while w < width + 1
      invariant 0 <= w <= width + 1
      invariant trisIndex == 6 * CellsBefore(width, height, w, 0) && trisIndex <= triangles.Length
      invariant forall i :: 0 <= i < vertices.Length && Visited(width, w, 0, i) ==>
        vertices[i] == GridVertexAt(width, height, unitLength, isHorizontal, i) && uvs[i] == GridUvAt(width, height, i)
      invariant forall t :: 0 <= t < trisIndex ==> triangles[t] == GridTriangleCorner(width, height, t)
    {
      trisIndex := GenerateColumn(vertices, uvs, triangles, width, height, unitLength, isHorizontal, w, trisIndex);
      var next, top := w + 1, height + 1;
      forall i | 0 <= i < vertices.Length
        ensures Visited(width, next, 0, i) <==> Visited(width, w, top, i)
      {
        NextColumn(width, height, w, i);
      }
      NextColumn(width, height, w, 0);
      w := w + 1;
    }
    forall i | 0 <= i < vertices.Length
      ensures Visited(width, w, 0, i)
    {
      GridSlotsCover(width, height, i);
    }
  }

  /** The inner loop: the points of column `w`, and the cells to their right
      when the column is not the last. */
  method GenerateColumn(vertices: array<Vec3>, uvs: array<Vec2>, triangles: array<int>,
                        width: int, height: int, unitLength: real, isHorizontal: bool, w: int, trisStart: int)
    returns (trisIndex: int)
    requires width >= 1 && height >= 1 && 0 <= w <= width
    requires vertices.Length == (width + 1) * (height + 1) && uvs.Length == vertices.Length
    requires triangles.Length == width * height * 2 * 3
    requires trisStart == 6 * CellsBefore(width, height, w, 0) && trisStart <= triangles.Length
    requires forall i :: 0 <= i < vertices.Length && Visited(width, w, 0, i) ==>
      vertices[i] == GridVertexAt(width, height, unitLength, isHorizontal, i) && uvs[i] == GridUvAt(width, height, i)
    requires forall t :: 0 <= t < trisStart ==> triangles[t] == GridTriangleCorner(width, height, t)
    modifies vertices, uvs, triangles
    ensures trisIndex == 6 * CellsBefore(width, height, w, height + 1) && trisIndex <= triangles.Length
    ensures forall i :: 0 <= i < vertices.Length && Visited(width, w, height + 1, i) ==>
      vertices[i] == GridVertexAt(width, height, unitLength, isHorizontal, i) && uvs[i] == GridUvAt(width, height, i)
    ensures forall t :: 0 <= t < trisIndex ==> triangles[t] == GridTriangleCorner(width, height, t)
  {
    trisIndex := trisStart;
    var h := 0;
    while h < height + 1
      invariant 0 <= h <= height + 1
      invariant trisIndex == 6 * CellsBefore(width, height, w, h) && trisIndex <= triangles.Length
      invariant forall i :: 0 <= i < vertices.Length && Visited(width, w, h, i) ==>
        vertices[i] == GridVertexAt(width, height, unitLength, isHorizontal, i) && uvs[i] == GridUvAt(width, height, i)
      invariant forall t :: 0 <= t < trisIndex ==> triangles[t] == GridTriangleCorner(width, height, t)
    {
      var vertIndex := GridSlot(width, w, h);
      SlotCoordinates(w, h, width + 1);
      GridSlotBound(width, height, w, h);
      vertices[vertIndex] := GridVertex(width, height, unitLength, isHorizontal, w, h);
      uvs[vertIndex] := GridUv(width, height, w, h);
      forall i | 0 <= i < vertices.Length
        ensures Visited(width, w, h + 1, i) <==> Visited(width, w, h, i) || i == vertIndex
      {
        VisitStep(width, w, h, i);
      }
      if w == width || h == height {
        h := h + 1;
        continue;
      }
      GridCellBound(width, height, w, h);
      GridCornersOfCell(width, height, w, h);
      WriteCell(triangles, width, trisIndex, vertIndex);
      trisIndex := trisIndex + 6;
      h := h + 1;
    }
  }

  /** The six writes of one cell, at the running triangle index. */
  method WriteCell(triangles: array<int>, width: int, trisIndex: int, vertIndex: int)
    requires 0 <= trisIndex && trisIndex + 6 <= triangles.Length
    modifies triangles
    ensures forall t :: 0 <= t < triangles.Length ==>
      triangles[t] == (if trisIndex <= t < trisIndex + 6 then GridCorners(width, vertIndex)[t - trisIndex] else old(triangles[t]))
  {
    triangles[trisIndex] := vertIndex;
    triangles[trisIndex + 1] := vertIndex + width + 1;
    triangles[trisIndex + 2] := vertIndex + width + 2;
    triangles[trisIndex + 3] := vertIndex;
    triangles[trisIndex + 4] := vertIndex + width + 2;
    triangles[trisIndex + 5] := vertIndex + 1;
  }

  // ---------------------------------------------------------------------------
  // Rings of tiles

  /** A tile object of ring `ring`, made for cell (x, z) of the ring's square and
      placed at `position`; every tile carries the mesh of
      `GenerateHorizontal(250, 250, 2.0, true)`. */
  datatype Tile = Tile(ring: int, x: int, z: int, position: Vec3)

  /** Side of ring r's square, in tiles. */
  function MeshCount(ringNumber: int): int {
    ringNumber * 2 + 1
  }

  /** Cell (x, z) lies on the border of an m × m square. */
  predicate OnBorder(m: int, x: int, z: int) {
    !(z != 0 && x != 0 && z != m - 1 && x != m - 1)
  }

  /** Where a tile of ring r ends up: the new object starts at the world origin
      and is only lowered by 5 units per ring. */
  function TilePosition(ringNumber: int): Vec3 {
    Vec3(0.0, -(ringNumber * 5) as real, 0.0)
  }

  /** The tiles the inner loop makes for cells x = 0 .. n-1 of row z. */
  function RowTiles(ringNumber: int, z: int, n: int): seq<Tile>
    decreases n
  {
    if n <= 0 then []
    else RowTiles(ringNumber, z, n - 1)
         + (if OnBorder(MeshCount(ringNumber), n - 1, z) then [Tile(ringNumber, n - 1, z, TilePosition(ringNumber))] else [])
  }

  /** The tiles of rows 0 .. k-1. */
  function RingRows(ringNumber: int, k: int): seq<Tile>
    decreases k
  {
    if k <= 0 then [] else RingRows(ringNumber, k - 1) + RowTiles(ringNumber, k - 1, MeshCount(ringNumber))
  }

  function RingTiles(ringNumber: int): seq<Tile> {
    RingRows(ringNumber, MeshCount(ringNumber))
  }

  /** The tiles of rings 0 .. numRings-1, ring by ring. */
  function Grid(numRings: int): seq<Tile>
    decreases numRings
  {
    if numRings <= 0 then [] else Grid(numRings - 1) + RingTiles(numRings - 1)
  }

  /** Tile `t` belongs to ring r: one of its border cells, at the ring's position. */
  predicate InRing(ringNumber: int, t: Tile) {
    var m := MeshCount(ringNumber);
    t.ring == ringNumber && 0 <= t.x < m && 0 <= t.z < m && OnBorder(m, t.x, t.z)
    && t.position == TilePosition(ringNumber)
  }

  /** Tile `a` comes before tile `b` in row-major order of their cells. */
  predicate CellBefore(a: Tile, b: Tile) {
    a.z < b.z || (a.z == b.z && a.x < b.x)
  }

  predicate CellsIncreasing(s: seq<Tile>) {
    forall i, j :: 0 <= i < j < |s| ==> CellBefore(s[i], s[j])
  }

  predicate AllInRing(ringNumber: int, s: seq<Tile>) {
    forall i :: 0 <= i < |s| ==> InRing(ringNumber, s[i])
  }

  /** Every tile of `s` lies in a row below `k`. */
  predicate RowsBelow(s: seq<Tile>, k: int) {
    forall i :: 0 <= i < |s| ==> s[i].z < k
  }

  lemma {:induction false} RowTilesInRing(ringNumber: int, z: int, n: int)
    requires ringNumber >= 0 && 0 <= z < MeshCount(ringNumber) && n <= MeshCount(ringNumber)
    ensures AllInRing(ringNumber, RowTiles(ringNumber, z, n))
    ensures forall i :: 0 <= i < |RowTiles(ringNumber, z, n)| ==>
      RowTiles(ringNumber, z, n)[i].z == z && RowTiles(ringNumber, z, n)[i].x < n
    ensures CellsIncreasing(RowTiles(ringNumber, z, n))
    decreases n
  {
    if n > 0 {
      RowTilesInRing(ringNumber, z, n - 1);
    }
  }

  lemma IncreasingConcat(a: seq<Tile>, b: seq<Tile>, k: int)
    requires CellsIncreasing(a) && CellsIncreasing(b) && RowsBelow(a, k)
    requires forall j :: 0 <= j < |b| ==> b[j].z == k
    ensures CellsIncreasing(a + b)
  {
  }

  lemma InRingConcat(ringNumber: int, a: seq<Tile>, b: seq<Tile>)
    requires AllInRing(ringNumber, a) && AllInRing(ringNumber, b)
    ensures AllInRing(ringNumber, a + b)
  {
  }

  lemma {:induction false} RingRowsInRing(ringNumber: int, k: int)
    requires ringNumber >= 0 && k <= MeshCount(ringNumber)
    ensures AllInRing(ringNumber, RingRows(ringNumber, k))
    ensures RowsBelow(RingRows(ringNumber, k), k)
    ensures CellsIncreasing(RingRows(ringNumber, k))
    decreases k
  {
    if k > 0 {
      var before, row := RingRows(ringNumber, k - 1), RowTiles(ringNumber, k - 1, MeshCount(ringNumber));
      RingRowsInRing(ringNumber, k - 1);
      RowTilesInRing(ringNumber, k - 1, MeshCount(ringNumber));
      assert RingRows(ringNumber, k) == before + row;
      InRingConcat(ringNumber, before, row);
      IncreasingConcat(before, row, k - 1);
    }
  }

  /** Ring r's tiles are border cells of its square, each cell at most once, in row-major order. */
  lemma RingTilesOnBorder(ringNumber: int)
    requires ringNumber >= 0
    ensures AllInRing(ringNumber, RingTiles(ringNumber))
    ensures CellsIncreasing(RingTiles(ringNumber))
  {
    RingRowsInRing(ringNumber, MeshCount(ringNumber));
  }

  /** Where the tile of cell (x, z) sits: after the rows before z and the cells of row z left of x. */
  function TileIndex(ringNumber: int, x: int, z: int): int {
    |RingRows(ringNumber, z)| + |RowTiles(ringNumber, z, x)|
  }

  /** Every border cell of ring r's square gets its tile, at the index the loops reach it. */
  lemma RingTilesComplete(ringNumber: int, x: int, z: int)
    requires 0 <= x < MeshCount(ringNumber) && 0 <= z < MeshCount(ringNumber)
    requires OnBorder(MeshCount(ringNumber), x, z)
    ensures 0 <= TileIndex(ringNumber, x, z) < |RingTiles(ringNumber)|
    ensures RingTiles(ringNumber)[TileIndex(ringNumber, x, z)] == Tile(ringNumber, x, z, TilePosition(ringNumber))
  {
    RowTileAt(ringNumber, x, z, MeshCount(ringNumber));
    RingTileAt(ringNumber, z, |RowTiles(ringNumber, z, x)|, MeshCount(ringNumber));
  }

  /** Once cell x of row z has been visited, its tile keeps its place as the row goes on. */
  lemma {:induction false} RowTileAt(ringNumber: int, x: int, z: int, n: int)
    requires 0 <= x < n && OnBorder(MeshCount(ringNumber), x, z)
    ensures |RowTiles(ringNumber, z, x)| < |RowTiles(ringNumber, z, n)|
    ensures RowTiles(ringNumber, z, n)[|RowTiles(ringNumber, z, x)|] == Tile(ringNumber, x, z, TilePosition(ringNumber))
    decreases n
  {
    RowStep(ringNumber, z, n - 1);
    if x < n - 1 {
      RowTileAt(ringNumber, x, z, n - 1);
    }
  }

  /** Once row z has been added, its j-th tile keeps its place as more rows follow. */
  lemma {:induction false} RingTileAt(ringNumber: int, z: int, j: int, k: int)
    requires 0 <= z < k && 0 <= j < |RowTiles(ringNumber, z, MeshCount(ringNumber))|
    ensures |RingRows(ringNumber, z)| + j < |RingRows(ringNumber, k)|
    ensures RingRows(ringNumber, k)[|RingRows(ringNumber, z)| + j] == RowTiles(ringNumber, z, MeshCount(ringNumber))[j]
    decreases k
  {
    RingStep(ringNumber, k - 1);
    if z < k - 1 {
      RingTileAt(ringNumber, z, j, k - 1);
    }
  }

  /** Number of tiles of row z among cells 0 .. n-1: the whole prefix on the
      first and last row, otherwise the two edge cells that lie in it. */
  lemma {:induction false} RowTilesCount(ringNumber: int, z: int, n: int)
    requires ringNumber >= 0 && 0 <= z < MeshCount(ringNumber) && 0 <= n <= MeshCount(ringNumber)
    ensures |RowTiles(ringNumber, z, n)| ==
      if z == 0 || z == MeshCount(ringNumber) - 1 then n
      else if n == 0 then 0
      else if n < MeshCount(ringNumber) then 1
      else 2
    decreases n
  {
    if n > 0 {
      RowTilesCount(ringNumber, z, n - 1);
    }
  }

  lemma {:induction false} RingRowsCount(ringNumber: int, k: int)
    requires ringNumber >= 1 && 0 <= k < MeshCount(ringNumber)
    ensures |RingRows(ringNumber, k)| == if k == 0 then 0 else MeshCount(ringNumber) + 2 * (k - 1)
    decreases k
  {
    if k > 0 {
      RingRowsCount(ringNumber, k - 1);
      RowTilesCount(ringNumber, k - 1, MeshCount(ringNumber));
    }
  }

  /** Ring 0 is one tile; ring r > 0 is the 8r tiles around the inner rings. */
  lemma RingTileCount(ringNumber: int)
    requires ringNumber >= 0
    ensures |RingTiles(ringNumber)| == if ringNumber == 0 then 1 else 8 * ringNumber
  {
    var m := MeshCount(ringNumber);
    if ringNumber == 0 {
      RowTilesCount(0, 0, 1);
      assert RingTiles(0) == RingRows(0, 0) + RowTiles(0, 0, 1);
    } else {
      RingRowsCount(ringNumber, m - 1);
      RowTilesCount(ringNumber, m - 1, m);
      assert RingTiles(ringNumber) == RingRows(ringNumber, m - 1) + RowTiles(ringNumber, m - 1, m);
    }
  }

  /** Rings 0 .. n-1 fill the whole (2n-1) × (2n-1) square of tiles. */
  lemma {:induction false} GridCount(numRings: int)
    requires numRings >= 1
    ensures |Grid(numRings)| == (2 * numRings - 1) * (2 * numRings - 1)
    decreases numRings
  {
    var n := numRings;
    assert |Grid(n)| == |Grid(n - 1)| + |RingTiles(n - 1)|;
    RingTileCount(n - 1);
    if n > 1 {
      GridCount(n - 1);
      SquareStep(2 * n - 3);
    }
  }

  lemma SquareStep(a: int)
    ensures (a + 2) * (a + 2) == a * a + 4 * a + 4
  {
    assert (a + 2) * (a + 2) == (a + 2) * a + (a + 2) * 2;
  }

  /** Every tile of `s` belongs to one of rings 0 .. n-1. */
  predicate RingsBelow(s: seq<Tile>, n: int) {
    forall i :: 0 <= i < |s| ==> 0 <= s[i].ring < n
  }

  predicate RingsAscending(s: seq<Tile>) {
    forall i, j :: 0 <= i < j < |s| ==> s[i].ring <= s[j].ring
  }

  lemma AscendingConcat(inner: seq<Tile>, outer: seq<Tile>, n: int)
    requires n >= 0 && RingsBelow(inner, n) && RingsAscending(inner)
    requires forall j :: 0 <= j < |outer| ==> outer[j].ring == n
    ensures RingsBelow(inner + outer, n + 1) && RingsAscending(inner + outer)
  {
    var s := inner + outer;
    forall i | 0 <= i < |s|
      ensures 0 <= s[i].ring <= n
    {
      if i < |inner| {
        assert s[i] == inner[i];
        assert 0 <= inner[i].ring < n;
      } else {
        assert s[i] == outer[i - |inner|];
        assert outer[i - |inner|].ring == n;
      }
    }
    forall i, j | 0 <= i < j < |s|
      ensures s[i].ring <= s[j].ring
    {
      if j < |inner| {
        assert s[i] == inner[i] && s[j] == inner[j];
      } else {
        assert s[j] == outer[j - |inner|];
      }
    }
  }

  /** The grid holds rings 0 .. n-1 in order: ring numbers never decrease along it. */
  lemma {:induction false} GridRingsInOrder(numRings: int)
    ensures RingsBelow(Grid(numRings), numRings)
    ensures RingsAscending(Grid(numRings))
    decreases numRings
  {
    if numRings > 0 {
      var inner, outer := Grid(numRings - 1), RingTiles(numRings - 1);
      GridRingsInOrder(numRings - 1);
      RingTilesOnBorder(numRings - 1);
      assert Grid(numRings) == inner + outer;
      AscendingConcat(inner, outer, numRings - 1);
    }
  }

  /** The tiles of one ring are not spread over the ring's square: they all
      share one position, whatever their cell. */
  lemma RingTilesCoincide(ringNumber: int, i: int, j: int)
    requires ringNumber >= 0 && 0 <= i < |RingTiles(ringNumber)| && 0 <= j < |RingTiles(ringNumber)|
    ensures RingTiles(ringNumber)[i].position == RingTiles(ringNumber)[j].position
  {
    RingTilesOnBorder(ringNumber);
  }

  /** One more cell of the inner loop. */
  lemma RowStep(ringNumber: int, z: int, x: int)
    requires x >= 0
    ensures RowTiles(ringNumber, z, x + 1) == RowTiles(ringNumber, z, x)
      + (if OnBorder(MeshCount(ringNumber), x, z) then [Tile(ringNumber, x, z, TilePosition(ringNumber))] else [])
  {
  }

  /** One more row of the outer loop. */
  lemma RingStep(ringNumber: int, z: int)
    requires z >= 0
    ensures RingRows(ringNumber, z + 1) == RingRows(ringNumber, z) + RowTiles(ringNumber, z, MeshCount(ringNumber))
  {
  }

  /** One more ring of the grid loop. */
  lemma GridStep(i: int)
    requires i >= 0
    ensures Grid(i + 1) == Grid(i) + RingTiles(i)
  {
  }

  /** The component that lays out the rings; `tiles` records the objects it creates. */
  class OceanGeometry {
    var ringSize: int
    var resolution: int
    var numRings: int
    var tiles: seq<Tile>

    constructor (ringSize: int, resolution: int, numRings: int)
      ensures this.ringSize == ringSize && this.resolution == resolution && this.numRings == numRings
      ensures tiles == []
    {
      this.ringSize := ringSize;
      this.resolution := resolution;
      this.numRings := numRings;
      tiles := [];
    }

    /** Builds rings 0 .. numRings-1 in order. */
    method GenerateGrid()
      modifies this
      ensures tiles == old(tiles) + Grid(numRings)
      ensures ringSize == old(ringSize) && resolution == old(resolution) && numRings == old(numRings)
    {
      var i := 0;
      while i < numRings
        invariant i <= MaxInt(numRings, 0)
        invariant tiles == old(tiles) + Grid(i)
        invariant ringSize == old(ringSize) && resolution == old(resolution) && numRings == old(numRings)
      {
        GenerateRing(i);
        AppendAssoc(old(tiles), Grid(i), RingTiles(i));
        GridStep(i);
        i := i + 1;
      }
      if numRings <= 0 {
        assert Grid(numRings) == [] == Grid(0);
      }
    }

    /** Creates one tile object for every border cell of ring `ringNumber`'s square. */
    method GenerateRing(ringNumber: int)
      requires ringNumber >= 0
      modifies this
      ensures tiles == old(tiles) + RingTiles(ringNumber)
      ensures ringSize == old(ringSize) && resolution == old(resolution) && numRings == old(numRings)
    {
      // The tile objects of this ring, in the order the loops create them; the
      // loops change nothing else, so they are added in one go.
      var made: seq<Tile> := [];
      var meshCount := ringNumber * 2 + 1;
      var z := 0;
      while z < meshCount
        modifies {}
        invariant 0 <= z <= meshCount
        invariant made == RingRows(ringNumber, z)
      {
        var row := RingRow(ringNumber, z);
        made := made + row;
        z := z + 1;
      }
      tiles := tiles + made;
    }
  }

  /** The inner loop of the ring builder: the tiles of row z, skipping the
      cells strictly inside the ring's square. */
  method RingRow(ringNumber: int, z: int) returns (row: seq<Tile>)
    requires ringNumber >= 0 && z >= 0
    ensures RingRows(ringNumber, z + 1) == RingRows(ringNumber, z) + row
  {
    var meshCount := ringNumber * 2 + 1;
    row := [];
    var x := 0;
    while x < meshCount
      invariant 0 <= x <= meshCount
      invariant row == RowTiles(ringNumber, z, x)
    {
      RowStep(ringNumber, z, x);
      if z != 0 && x != 0 && z != meshCount - 1 && x != meshCount - 1 {
        x := x + 1;
        continue;
      }
      row := row + [Tile(ringNumber, x, z, Vec3(0.0, -(ringNumber * 5) as real, 0.0))];
      x := x + 1;
    }
    RingStep(ringNumber, z);
  }
}
