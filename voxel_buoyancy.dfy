// Voxel buoyancy: a box collider is cut into cubes, each cube keeps the water
// height sampled under it, and every physics step pushes up the cubes that are
// below the water line.

module VoxelBuoyancy {
  import opened UnityMath

  /** A CPU-side Texture2D whose wrap mode is Repeat: `GetPixel` accepts any
      integer coordinate and wraps it into the texture. */
  datatype Texture2D = Texture2D(width: int, height: int, pixel: (int, int) -> Vec3)

  predicate ValidTexture(t: Texture2D) {
    t.width >= 1 && t.height >= 1
  }

  /** Texture2D.GetPixel under the Repeat wrap mode; the colour's r, g, b
      channels are the vector's x, y, z. */
  function GetPixel(t: Texture2D, x: int, y: int): Vec3
    requires ValidTexture(t)
  {
    t.pixel(x % t.width, y % t.height)
  }

  /** Inside the texture, GetPixel reads the texel itself. */
  lemma GetPixelInside(t: Texture2D, x: int, y: int)
    requires ValidTexture(t)
    requires 0 <= x < t.width && 0 <= y < t.height
    ensures GetPixel(t, x, y) == t.pixel(x, y)
  {
  }

  /** Coordinates a whole number of texture sizes apart read the same texel. */
  lemma GetPixelRepeats(t: Texture2D, x: int, y: int, kx: int, ky: int)
    requires ValidTexture(t)
    ensures GetPixel(t, x + kx * t.width, y + ky * t.height) == GetPixel(t, x, y)
  {
    ModShift(x, kx, t.width);
    ModShift(y, ky, t.height);
  }

  // ---------------------------------------------------------------------
  // BuoyanceVoxel

  /** One cube of the body. Its world position is its offset carried through
      the parent's current transform, which the model takes as a function. */
  class BuoyanceVoxel {
    const size: real
    const offset: Vec3
    var waterHeight: real

    constructor (size: real, offset: Vec3)
      ensures this.size == size && this.offset == offset
      ensures waterHeight == 0.0
    {
      this.size := size;
      this.offset := offset;
      waterHeight := 0.0;
    }

    method SetWaterHeight(height: real)
      modifies this
      ensures waterHeight == height
    {
      waterHeight := height;
    }

    function GetPosition(toWorld: Vec3 -> Vec3): Vec3 {
      toWorld(offset)
    }

    /** How far the water stands above the cube's bottom face, or 0 when it
        stands below it. */
    function GetHeightDifference(toWorld: Vec3 -> Vec3): (d: real)
      reads this
      ensures d >= 0.0
      ensures d > 0.0 <==> waterHeight > GetPosition(toWorld).y - size / 2.0
      ensures d > 0.0 ==> d + GetPosition(toWorld).y - size / 2.0 == waterHeight
    {
      Max(waterHeight - (GetPosition(toWorld).y - size / 2.0), 0.0)
    }

    /** Under water exactly when the water line is above the bottom face. */
    predicate IsUnderWater(toWorld: Vec3 -> Vec3)
      reads this
    {
      GetHeightDifference(toWorld) > 0.0
    }

    /** The water column over the bottom face: never negative, and zero for
        a cube that is not under water. */
    function GetDisplacedVolume(toWorld: Vec3 -> Vec3): (v: real)
      reads this
      ensures v >= 0.0
      ensures !IsUnderWater(toWorld) ==> v == 0.0
    {
      VolumeSign(GetHeightDifference(toWorld), size);
      GetHeightDifference(toWorld) * size * size
    }
  }

  lemma VolumeSign(d: real, s: real)
    requires d >= 0.0
    ensures d * s * s >= 0.0
    ensures d == 0.0 ==> d * s * s == 0.0
  {
    assert d * s * s == d * (s * s);
    assert s * s >= 0.0;
  }

  /** The under-water test agrees with the water line and the bottom face. */
  lemma UnderWaterIffAboveBottom(v: BuoyanceVoxel, toWorld: Vec3 -> Vec3)
    ensures v.IsUnderWater(toWorld) <==> v.waterHeight + v.size / 2.0 > toWorld(v.offset).y
  {
  }

  /** Raising the water never shrinks the displaced volume of a cube. */
  lemma DisplacedVolumeMonotone(size: real, y: real, h1: real, h2: real)
    requires h1 <= h2
    ensures Max(h1 - (y - size / 2.0), 0.0) * size * size
         <= Max(h2 - (y - size / 2.0), 0.0) * size * size
  {
    var d1 := Max(h1 - (y - size / 2.0), 0.0);
    var d2 := Max(h2 - (y - size / 2.0), 0.0);
    assert d1 <= d2;
    assert d2 * size * size - d1 * size * size == (d2 - d1) * (size * size);
    VolumeSign(d2 - d1, size);
    assert (d2 - d1) * size * size == (d2 - d1) * (size * size);
  }

  // ---------------------------------------------------------------------
  // The voxel grid

/** Grid cell (i, j, k): i-th along x, j-th along y, k-th along z. */
  datatype Cell = Cell(i: int, j: int, k: int)

  predicate NoDuplicates(s: seq<Cell>) {
    forall a, b :: 0 <= a < b < |s| ==> s[a] != s[b]
  }

  /** Every cell of s lies in [iLo, iHi) x [jLo, jHi) x [0, kHi). */
  predicate Within(s: seq<Cell>, iLo: int, iHi: int, jLo: int, jHi: int, kHi: int) {
    forall n :: 0 <= n < |s| ==>
      iLo <= s[n].i < iHi && jLo <= s[n].j < jHi && 0 <= s[n].k < kHi
  }

  /** Cells (i, j, 0) .. (i, j, k - 1), in loop order. */
  function Row(i: int, j: int, k: nat): (r: seq<Cell>)
    ensures |r| == k
  {
    if k == 0 then [] else Row(i, j, k - 1) + [Cell(i, j, k - 1)]
  }

  /** Rows 0 .. j - 1 of layer i, each of `zCount` cells. */
  function Plane(i: int, j: nat, zCount: nat): seq<Cell>
  {
    if j == 0 then [] else Plane(i, j - 1, zCount) + Row(i, j - 1, zCount)
  }

  /** Layers 0 .. i - 1, each of `yCount` rows of `zCount` cells: the order
      in which the nested loops of PopulateVoxels visit the cells. */
  function Block(i: nat, yCount: nat, zCount: nat): seq<Cell>
  {
    if i == 0 then [] else Block(i - 1, yCount, zCount) + Plane(i - 1, yCount, zCount)
  }

  lemma WithinConcat(s: seq<Cell>, t: seq<Cell>, iLo: int, iHi: int, jLo: int, jHi: int, kHi: int)
    requires Within(s, iLo, iHi, jLo, jHi, kHi) && Within(t, iLo, iHi, jLo, jHi, kHi)
    ensures Within(s + t, iLo, iHi, jLo, jHi, kHi)
  {
    forall n | 0 <= n < |s + t|
      ensures iLo <= (s + t)[n].i < iHi && jLo <= (s + t)[n].j < jHi && 0 <= (s + t)[n].k < kHi
    {
      if n >= |s| { assert (s + t)[n] == t[n - |s|]; }
    }
  }

  lemma ConcatNoDuplicates(s: seq<Cell>, t: seq<Cell>)
    requires NoDuplicates(s) && NoDuplicates(t)
    requires forall a, b :: 0 <= a < |s| && 0 <= b < |t| ==> s[a] != t[b]
    ensures NoDuplicates(s + t)
  {
    forall a, b | 0 <= a < b < |s + t|
      ensures (s + t)[a] != (s + t)[b]
    {
      if b < |s| {
      } else if a >= |s| {
        assert (s + t)[a] == t[a - |s|] && (s + t)[b] == t[b - |s|];
      } else {
        assert (s + t)[a] == s[a] && (s + t)[b] == t[b - |s|];
      }
    }
  }

  lemma {:induction false} RowWithin(i: int, j: int, k: nat)
    ensures Within(Row(i, j, k), i, i + 1, j, j + 1, k)
    ensures NoDuplicates(Row(i, j, k))
  {
    if k > 0 {
      RowWithin(i, j, k - 1);
      var r := Row(i, j, k - 1);
      assert Within(r, i, i + 1, j, j + 1, k);
      var last := [Cell(i, j, k - 1)];
      forall a, b | 0 <= a < |r| && 0 <= b < |last|
        ensures r[a] != last[b]
      {
      }
      ConcatNoDuplicates(r, last);
      WithinConcat(r, last, i, i + 1, j, j + 1, k);
    }
  }

  lemma {:induction false} PlaneWithin(i: int, j: nat, zCount: nat)
    ensures Within(Plane(i, j, zCount), i, i + 1, 0, j, zCount)
    ensures NoDuplicates(Plane(i, j, zCount))
  {
    if j > 0 {
      var p := Plane(i, j - 1, zCount);
      var r := Row(i, j - 1, zCount);
      PlaneWithin(i, j - 1, zCount);
      RowWithin(i, j - 1, zCount);
      assert Within(p, i, i + 1, 0, j, zCount);
      assert Within(r, i, i + 1, 0, j, zCount);
      WithinConcat(p, r, i, i + 1, 0, j, zCount);
      forall a, b | 0 <= a < |p| && 0 <= b < |r|
        ensures p[a] != r[b]
      {
        assert p[a].j < j - 1 && r[b].j == j - 1;
      }
      ConcatNoDuplicates(p, r);
    }
  }

  /** The grid holds only cells of the box and visits none of them twice. */
  lemma {:induction false} BlockWithin(i: nat, yCount: nat, zCount: nat)
    ensures Within(Block(i, yCount, zCount), 0, i, 0, yCount, zCount)
    ensures NoDuplicates(Block(i, yCount, zCount))
  {
    if i > 0 {
      var b := Block(i - 1, yCount, zCount);
      var p := Plane(i - 1, yCount, zCount);
      BlockWithin(i - 1, yCount, zCount);
      PlaneWithin(i - 1, yCount, zCount);
      assert Within(b, 0, i, 0, yCount, zCount);
      assert Within(p, 0, i, 0, yCount, zCount);
      WithinConcat(b, p, 0, i, 0, yCount, zCount);
      forall a, c | 0 <= a < |b| && 0 <= c < |p|
        ensures b[a] != p[c]
      {
        assert b[a].i < i - 1 && p[c].i == i - 1;
      }
      ConcatNoDuplicates(b, p);
    }
  }

  lemma {:induction false} PlaneLength(i: int, j: nat, zCount: nat)
    ensures |Plane(i, j, zCount)| == j * zCount
  {
    if j > 0 {
      PlaneLength(i, j - 1, zCount);
      assert j * zCount == (j - 1) * zCount + zCount;
    }
  }

  lemma LayerStep(i: int, y: int, z: int)
    ensures i * y * z == (i - 1) * y * z + y * z
  {
  }

  /** The grid has one cell per cube that fits along each axis. */
  lemma {:induction false} BlockLength(i: nat, yCount: nat, zCount: nat)
    ensures |Block(i, yCount, zCount)| == i * yCount * zCount
  {
    if i > 0 {
      BlockLength(i - 1, yCount, zCount);
      PlaneLength(i - 1, yCount, zCount);
      LayerStep(i, yCount, zCount);
    }
  }

  /** Centre of cell c of a box whose minimum corner is `min`, for cubes of
      side v. */
  function CellCentre(min: Vec3, v: real, c: Cell): Vec3 {
    Vec3(min.x + c.i as real * v + v / 2.0,
         min.y + c.j as real * v + v / 2.0,
         min.z + c.k as real * v + v / 2.0)
  }

  /** How many times `for (int i = 0; i < FloorToInt(extent / v); i++)` runs. */
  function CellCount(extent: real, v: real): (n: nat)
    requires v != 0.0
    ensures n as real <= Max(extent / v, 0.0) < n as real + 1.0
  {
    MaxInt(FloorToInt(extent / v), 0)
  }

  /** A negative cube side over a box of non-negative extent makes every
      loop bound non-positive: no cell is visited. */
  lemma NegativeSizeNoCells(extent: real, v: real)
    requires v < 0.0 && extent >= 0.0
    ensures CellCount(extent, v) == 0
  {
    assert extent / v <= 0.0 by {
      if extent > 0.0 {
        assert extent / v * v == extent;
      }
    }
  }

  /** vs[n] is a cube of side v whose offset is the local image of the
      centre of cells[n]. */
  predicate Placed(vs: seq<BuoyanceVoxel>, cells: seq<Cell>, min: Vec3, v: real,
                   inverseTransform: Vec3 -> Vec3)
  {
    |vs| == |cells| &&
    forall n :: 0 <= n < |vs| ==>
      vs[n].size == v && vs[n].offset == inverseTransform(CellCentre(min, v, cells[n]))
  }

  /** The vertical buoyancy force of one cube: displaced volume times gravity,
      shared out over all cubes and scaled by the buoyancy factor. */
  function VoxelForce(volume: real, count: int, factor: real): Vec3
    requires count != 0
  {
    Vec3(0.0, volume * Gravity / count as real * factor, 0.0)
  }

  /** The Rigidbody calls ApplyForces makes for `vs`, in list order, when the
      whole list holds `count` cubes. */
  function VoxelForces(vs: seq<BuoyanceVoxel>, count: int, factor: real,
                       toWorld: Vec3 -> Vec3): seq<RigidBodyCall>
    requires count != 0
    reads set v | v in vs
  {
    if |vs| == 0 then []
    else
      var last := vs[|vs| - 1];
      VoxelForces(vs[..|vs| - 1], count, factor, toWorld) +
      (if last.IsUnderWater(toWorld)
       then [AddForceAtPosition(VoxelForce(last.GetDisplacedVolume(toWorld), count, factor),
                                last.GetPosition(toWorld))]
       else [])
  }

  function UnderWaterCount(vs: seq<BuoyanceVoxel>, toWorld: Vec3 -> Vec3): nat
    reads set v | v in vs
  {
    if |vs| == 0 then 0
    else UnderWaterCount(vs[..|vs| - 1], toWorld) + (if vs[|vs| - 1].IsUnderWater(toWorld) then 1 else 0)
  }

  /** Sum of the displaced volumes of the cubes that are under water. */
  function SubmergedVolume(vs: seq<BuoyanceVoxel>, toWorld: Vec3 -> Vec3): real
    reads set v | v in vs
  {
    if |vs| == 0 then 0.0
    else
      var last := vs[|vs| - 1];
      SubmergedVolume(vs[..|vs| - 1], toWorld) +
      (if last.IsUnderWater(toWorld) then last.GetDisplacedVolume(toWorld) else 0.0)
  }

  /** The vertical force a call applies. */
  function LiftOf(call: RigidBodyCall): real {
    match call
    case AddForceAtPosition(f, _) => f.y
    case AddForce(f) => f.y
    case AddTorque(_) => 0.0
  }

  function ForceSumY(calls: seq<RigidBodyCall>): real {
    if |calls| == 0 then 0.0
    else ForceSumY(calls[..|calls| - 1]) + LiftOf(calls[|calls| - 1])
  }

  /** `call` is the force ApplyForces makes for cube v. */
  predicate ForceFor(v: BuoyanceVoxel, call: RigidBodyCall, count: int, factor: real,
                     toWorld: Vec3 -> Vec3)
    requires count != 0
    reads v
  {
    v.IsUnderWater(toWorld) &&
    call == AddForceAtPosition(VoxelForce(v.GetDisplacedVolume(toWorld), count, factor),
                               v.GetPosition(toWorld))
  }

  /** One call per cube under water and none for the others; every call
      pushes straight up at the cube's own position with the cube's share of
      the force. */
  lemma {:induction false} ForcesOnlyUnderWater(vs: seq<BuoyanceVoxel>, count: int, factor: real,
                                                toWorld: Vec3 -> Vec3)
    requires count != 0
    ensures |VoxelForces(vs, count, factor, toWorld)| == UnderWaterCount(vs, toWorld)
    ensures forall call :: call in VoxelForces(vs, count, factor, toWorld) ==>
      exists n :: 0 <= n < |vs| && ForceFor(vs[n], call, count, factor, toWorld)
  {
    if |vs| > 0 {
      var init := vs[..|vs| - 1];
      ForcesOnlyUnderWater(init, count, factor, toWorld);
      forall call | call in VoxelForces(vs, count, factor, toWorld)
        ensures exists n :: 0 <= n < |vs| && ForceFor(vs[n], call, count, factor, toWorld)
      {
        if call in VoxelForces(init, count, factor, toWorld) {
          var n :| 0 <= n < |init| && ForceFor(init[n], call, count, factor, toWorld);
          assert vs[n] == init[n];
        } else {
          assert ForceFor(vs[|vs| - 1], call, count, factor, toWorld);
        }
      }
    }
  }

  /** The force ApplyForces records for a cube under water. */
  function LiftCall(v: BuoyanceVoxel, count: int, factor: real, toWorld: Vec3 -> Vec3): RigidBodyCall
    requires count != 0
    reads v
  {
    AddForceAtPosition(VoxelForce(v.GetDisplacedVolume(toWorld), count, factor), v.GetPosition(toWorld))
  }

  lemma UnfoldWet(vs: seq<BuoyanceVoxel>, count: int, factor: real, toWorld: Vec3 -> Vec3)
    requires count != 0 && |vs| > 0 && vs[|vs| - 1].IsUnderWater(toWorld)
    ensures VoxelForces(vs, count, factor, toWorld)
         == VoxelForces(vs[..|vs| - 1], count, factor, toWorld) + [LiftCall(vs[|vs| - 1], count, factor, toWorld)]
    ensures SubmergedVolume(vs, toWorld)
         == SubmergedVolume(vs[..|vs| - 1], toWorld) + vs[|vs| - 1].GetDisplacedVolume(toWorld)
  {
  }

  lemma SumSnoc(before: seq<RigidBodyCall>, call: RigidBodyCall)
    ensures ForceSumY(before + [call]) == ForceSumY(before) + LiftOf(call)
  {
    assert (before + [call])[..|before|] == before;
  }

  /** The lift per unit of submerged volume: gravity shared over the cube count, times the factor. */
  function LiftPerVolume(count: int, factor: real): real
    requires count != 0
  {
    Gravity / count as real * factor
  }

  /** The displaced volumes of the cubes under water, in list order. */
  function WetVolumes(vs: seq<BuoyanceVoxel>, toWorld: Vec3 -> Vec3): seq<real>
    reads set v | v in vs
  {
    if |vs| == 0 then []
    else
      var last := vs[|vs| - 1];
      WetVolumes(vs[..|vs| - 1], toWorld) + (if last.IsUnderWater(toWorld) then [last.GetDisplacedVolume(toWorld)] else [])
  }

  function Sum(xs: seq<real>): real {
    if |xs| == 0 then 0.0 else Sum(xs[..|xs| - 1]) + xs[|xs| - 1]
  }

  /** The vertical forces of cubes displacing `xs`. */
  function Lifts(xs: seq<real>, count: int, factor: real): seq<real>
    requires count != 0
  {
    if |xs| == 0 then [] else Lifts(xs[..|xs| - 1], count, factor) + [VoxelForce(xs[|xs| - 1], count, factor).y]
  }

  lemma SumSnocReal(xs: seq<real>, x: real)
    ensures Sum(xs + [x]) == Sum(xs) + x
  {
    assert (xs + [x])[..|xs|] == xs;
  }

  lemma LiftsSnoc(xs: seq<real>, x: real, count: int, factor: real)
    requires count != 0
    ensures Lifts(xs + [x], count, factor) == Lifts(xs, count, factor) + [VoxelForce(x, count, factor).y]
  {
    assert (xs + [x])[..|xs|] == xs;
  }

  /** A real product, named so that equal factors give equal products by congruence. */
  function Times(x: real, k: real): real {
    x * k
  }

  /** Every volume of `xs` times `k`. */
  function Scaled(xs: seq<real>, k: real): seq<real> {
    if |xs| == 0 then [] else Scaled(xs[..|xs| - 1], k) + [Times(xs[|xs| - 1], k)]
  }

  /** Scaling every term scales the sum. */
  lemma {:induction false} ScaledSum(xs: seq<real>, k: real)
    ensures Sum(Scaled(xs, k)) == Times(Sum(xs), k)
  {
    if |xs| > 0 {
      ScaledSum(xs[..|xs| - 1], k);
      SumSnocReal(Scaled(xs[..|xs| - 1], k), Times(xs[|xs| - 1], k));
      ScaleSum(Sum(xs), Sum(xs[..|xs| - 1]), xs[|xs| - 1], k);
    }
  }

  /** The per-cube forces are the volumes scaled by the lift per volume. */
  lemma {:induction false} LiftsAreScaled(xs: seq<real>, count: int, factor: real)
    requires count != 0
    ensures Lifts(xs, count, factor) == Scaled(xs, LiftPerVolume(count, factor))
  {
    if |xs| > 0 {
      LiftsAreScaled(xs[..|xs| - 1], count, factor);
      ShareOfLift(xs[|xs| - 1], count, factor);
    }
  }

  /** Summing the per-cube forces is scaling the summed volume. */
  lemma LiftsScale(xs: seq<real>, count: int, factor: real)
    requires count != 0
    ensures Sum(Lifts(xs, count, factor)) == VoxelForce(Sum(xs), count, factor).y
  {
    LiftsAreScaled(xs, count, factor);
    ScaledSum(xs, LiftPerVolume(count, factor));
    ShareOfLift(Sum(xs), count, factor);
  }

  /** Scaling distributes over a sum. */
  lemma ScaleSum(total: real, part: real, rest: real, k: real)
    requires total == part + rest
    ensures Times(total, k) == Times(part, k) + Times(rest, k)
  {
  }

  lemma ShareOfLift(volume: real, count: int, factor: real)
    requires count != 0
    ensures VoxelForce(volume, count, factor).y == Times(volume, LiftPerVolume(count, factor))
  {
  }

  /** The submerged volume is the sum of the wet cubes' volumes. */
  lemma {:induction false} SubmergedIsSum(vs: seq<BuoyanceVoxel>, toWorld: Vec3 -> Vec3)
    ensures SubmergedVolume(vs, toWorld) == Sum(WetVolumes(vs, toWorld))
  {
    if |vs| > 0 {
      var last := vs[|vs| - 1];
      SubmergedIsSum(vs[..|vs| - 1], toWorld);
      if last.IsUnderWater(toWorld) {
        SumSnocReal(WetVolumes(vs[..|vs| - 1], toWorld), last.GetDisplacedVolume(toWorld));
      } else {
        assert WetVolumes(vs, toWorld) == WetVolumes(vs[..|vs| - 1], toWorld) + [];
        assert WetVolumes(vs[..|vs| - 1], toWorld) + [] == WetVolumes(vs[..|vs| - 1], toWorld);
      }
    }
  }

  /** The recorded forces add up as the lifts of the wet cubes' volumes. */
  lemma {:induction false} ForcesAreLifts(vs: seq<BuoyanceVoxel>, count: int, factor: real, toWorld: Vec3 -> Vec3)
    requires count != 0
    ensures ForceSumY(VoxelForces(vs, count, factor, toWorld)) == Sum(Lifts(WetVolumes(vs, toWorld), count, factor))
  {
    if |vs| > 0 {
      var last := vs[|vs| - 1];
      ForcesAreLifts(vs[..|vs| - 1], count, factor, toWorld);
      if last.IsUnderWater(toWorld) {
        UnfoldWet(vs, count, factor, toWorld);
        SumSnoc(VoxelForces(vs[..|vs| - 1], count, factor, toWorld), LiftCall(last, count, factor, toWorld));
        LiftsSnoc(WetVolumes(vs[..|vs| - 1], toWorld), last.GetDisplacedVolume(toWorld), count, factor);
        SumSnocReal(Lifts(WetVolumes(vs[..|vs| - 1], toWorld), count, factor),
                    VoxelForce(last.GetDisplacedVolume(toWorld), count, factor).y);
      } else {
        UnfoldDry(vs, count, factor, toWorld);
        assert WetVolumes(vs, toWorld) == WetVolumes(vs[..|vs| - 1], toWorld) + [];
        assert WetVolumes(vs[..|vs| - 1], toWorld) + [] == WetVolumes(vs[..|vs| - 1], toWorld);
      }
    }
  }

  /** The forces of the first `n + 1` cubes: those of the first `n`, then cube `n`'s own when it is under water. */
  lemma ForcesStep(vs: seq<BuoyanceVoxel>, n: int, count: int, factor: real, toWorld: Vec3 -> Vec3)
    requires count != 0 && 0 <= n < |vs|
    ensures VoxelForces(vs[..n + 1], count, factor, toWorld)
         == VoxelForces(vs[..n], count, factor, toWorld)
            + (if vs[n].IsUnderWater(toWorld)
               then [AddForceAtPosition(VoxelForce(vs[n].GetDisplacedVolume(toWorld), count, factor), vs[n].GetPosition(toWorld))]
               else [])
  {
    assert vs[..n + 1][..n] == vs[..n];
  }

  lemma UnfoldDry(vs: seq<BuoyanceVoxel>, count: int, factor: real, toWorld: Vec3 -> Vec3)
    requires count != 0 && |vs| > 0 && !vs[|vs| - 1].IsUnderWater(toWorld)
    ensures VoxelForces(vs, count, factor, toWorld) == VoxelForces(vs[..|vs| - 1], count, factor, toWorld)
    ensures SubmergedVolume(vs, toWorld) == SubmergedVolume(vs[..|vs| - 1], toWorld)
  {
    assert VoxelForces(vs[..|vs| - 1], count, factor, toWorld) + []
        == VoxelForces(vs[..|vs| - 1], count, factor, toWorld);
  }

  /** The upward forces of one step add up to the force a single cube
      displacing the whole submerged volume would get: that volume times
      gravity over the cube count, times the buoyancy factor. */
  lemma ForcesSumToSubmergedVolume(vs: seq<BuoyanceVoxel>, count: int, factor: real, toWorld: Vec3 -> Vec3)
    requires count != 0
    ensures ForceSumY(VoxelForces(vs, count, factor, toWorld))
         == VoxelForce(SubmergedVolume(vs, toWorld), count, factor).y
  {
    ForcesAreLifts(vs, count, factor, toWorld);
    LiftsScale(WetVolumes(vs, toWorld), count, factor);
    SubmergedIsSum(vs, toWorld);
  }

  // ---------------------------------------------------------------------
  // Height sampling from the three read-back displacement maps

  /** The three displacement textures of one read-back batch and the length
      scales of the cascades they belong to. */
  datatype Displacements = Displacements(dis1: Texture2D, dis2: Texture2D, dis3: Texture2D,
                                         lengthScale1: real, lengthScale2: real, lengthScale3: real)

  predicate ValidDisplacements(d: Displacements) {
    ValidTexture(d.dis1) && ValidTexture(d.dis2) && ValidTexture(d.dis3) &&
    d.lengthScale1 > 0.0 && d.lengthScale2 > 0.0 && d.lengthScale3 > 0.0
  }

  /** Displacement maps that can be sampled: non-empty textures and positive length scales. */
  type DisplacementMaps = d: Displacements | ValidDisplacements(d)
    witness Displacements(Texture2D(1, 1, (x: int, y: int) => Vec3(0.0, 0.0, 0.0)),
                          Texture2D(1, 1, (x: int, y: int) => Vec3(0.0, 0.0, 0.0)),
                          Texture2D(1, 1, (x: int, y: int) => Vec3(0.0, 0.0, 0.0)), 1.0, 1.0, 1.0)

  /** Texel index of world coordinate s in a cascade of the given length
      scale, computed with the truncating float `%`. */
  function RawIndex(s: real, lengthScale: real, size: int): int
    requires lengthScale > 0.0
  {
    FloorToInt(FMod(s, lengthScale) / lengthScale * size as real)
  }

  lemma Distribute(u: real, t: real, s: real)
    ensures (u - t) * s == u * s - t * s
  {
  }

  /** The truncating index is the untruncated one shifted by a whole number
      of texture sizes. */
  lemma RawIndexShifted(s: real, lengthScale: real, size: int)
    requires lengthScale > 0.0
    ensures RawIndex(s, lengthScale, size)
         == FloorToInt(s / lengthScale * size as real) - Truncate(s / lengthScale) * size
  {
    var q := Truncate(s / lengthScale);
    QuotientShift(s, lengthScale, q as real);
    assert FMod(s, lengthScale) / lengthScale == s / lengthScale - q as real;
    Distribute(s / lengthScale, q as real, size as real);
    assert (q * size) as real == q as real * size as real;
    FloorShift(s / lengthScale * size as real, -(q * size));
  }

  /** For a negative coordinate that is not a multiple of the length scale the
      computed index is negative: the truncating `%` does not wrap it into
      the texture. */
  lemma RawIndexNegative(s: real, lengthScale: real, size: int)
    requires lengthScale > 0.0 && size >= 1
    requires FMod(s, lengthScale) < 0.0
    ensures -size <= RawIndex(s, lengthScale, size) < 0
  {
    var r := FMod(s, lengthScale);
    var u := r / lengthScale;
    assert -1.0 < u < 0.0 by {
      MulDiv(r, lengthScale);
      if u >= 0.0 { MulMono(lengthScale, 0.0, u); }
      if u <= -1.0 { MulMono(lengthScale, u, -1.0); }
    }
    MulStrict(size as real, u, 0.0);
    MulStrict(size as real, -1.0, u);
    assert u * size as real == size as real * u;
  }

  /** A world x of -1 in a cascade of length 4 sampled at 8 texels gives
      texel -2, where a true modulo gives texel 6. */
  lemma RawIndexNegativeExample()
    ensures RawIndex(-1.0, 4.0, 8) == -2
    ensures FloorToInt((-1.0 / 4.0 - FloorToInt(-1.0 / 4.0) as real) * 8.0) == 6
  {
    assert FMod(-1.0, 4.0) == -1.0;
  }

  /** Under the Repeat wrap mode the negative index still reads the texel a
      true modulo would give, so the lookup tiles the cascade correctly. */
  lemma RepeatWrapHidesTruncation(t: Texture2D, s: real, lengthScale: real, y: int)
    requires ValidTexture(t) && lengthScale > 0.0
    ensures GetPixel(t, RawIndex(s, lengthScale, t.width), y)
         == GetPixel(t, FloorToInt(s / lengthScale * t.width as real), y)
  {
    RawIndexShifted(s, lengthScale, t.width);
    GetPixelRepeats(t, FloorToInt(s / lengthScale * t.width as real), y, -Truncate(s / lengthScale), 0);
    assert -Truncate(s / lengthScale) * t.width == -(Truncate(s / lengthScale) * t.width);
  }

  /** The displacement the three cascades add at a sample point; every map
      is indexed with the first map's width. */
  function Displacement(d: DisplacementMaps, sampleX: real, sampleZ: real): Vec3
  {
    var size := d.dis1.width;
    var p1 := GetPixel(d.dis1, RawIndex(sampleX, d.lengthScale1, size), RawIndex(sampleZ, d.lengthScale1, size));
    var p2 := GetPixel(d.dis2, RawIndex(sampleX, d.lengthScale2, size), RawIndex(sampleZ, d.lengthScale2, size));
    var p3 := GetPixel(d.dis3, RawIndex(sampleX, d.lengthScale3, size), RawIndex(sampleZ, d.lengthScale3, size));
    Add(Add(p1, p2), p3)
  }

  /** State of the refinement after some iterations: where to sample next
      and the height read last. */
  datatype Probe = Probe(sampleX: real, sampleZ: real, height: real)

  /** One refinement iteration: sample at the probe's point, then move the
      sample point to the world point minus the horizontal displacement found
      there and keep the vertical displacement. */
  function Step(d: DisplacementMaps, worldX: real, worldZ: real, p: Probe): Probe
  {
    var dis := Displacement(d, p.sampleX, p.sampleZ);
    Probe(worldX - dis.x, worldZ - dis.z, dis.y)
  }

  /** The refinement after n iterations. */
  function Refine(d: DisplacementMaps, worldX: real, worldZ: real, n: nat): Probe
  {
    if n == 0 then Probe(worldX, worldZ, 0.0)
    else Step(d, worldX, worldZ, Refine(d, worldX, worldZ, n - 1))
  }

  /** The number of refinement iterations SampleHeight runs. */
  const Iterations: nat := 8

  /** A sample point that the world point minus its own horizontal
      displacement brings back to itself is a fixed point of the refinement:
      once iteration n reaches it, every later iteration reads the same
      displacement there. */
  lemma {:induction false} RefineSettles(d: DisplacementMaps, worldX: real, worldZ: real, n: nat, m: nat)
    requires n < m
    requires var p := Refine(d, worldX, worldZ, n);
      var dis := Displacement(d, p.sampleX, p.sampleZ);
      p.sampleX == worldX - dis.x && p.sampleZ == worldZ - dis.z
    ensures Refine(d, worldX, worldZ, m) == Refine(d, worldX, worldZ, n + 1)
  {
    var p := Refine(d, worldX, worldZ, n);
    var q := Step(d, worldX, worldZ, p);
    assert q.sampleX == p.sampleX && q.sampleZ == p.sampleZ;
    if m > n + 1 {
      RefineSettles(d, worldX, worldZ, n, m - 1);
      assert Refine(d, worldX, worldZ, m) == Step(d, worldX, worldZ, q);
    }
  }

  /** The maps move no point sideways: only their vertical channel is non-zero. */
  ghost predicate NoHorizontalDisplacement(d: DisplacementMaps) {
    forall sx: real, sz: real ::
      Displacement(d, sx, sz).x == 0.0 && Displacement(d, sx, sz).z == 0.0
  }

  /** Without horizontal displacement the refinement never leaves the world
      point, and the height found is the vertical displacement there. */
  lemma FlatMapsReadInPlace(d: DisplacementMaps, worldX: real, worldZ: real)
    requires NoHorizontalDisplacement(d)
    ensures forall n: nat :: 1 <= n ==>
      Refine(d, worldX, worldZ, n) == Probe(worldX, worldZ, Displacement(d, worldX, worldZ).y)
    ensures WaterHeightUnder(d, Vec3(worldX, 0.0, worldZ)) == Displacement(d, worldX, worldZ).y
  {
    var dis := Displacement(d, worldX, worldZ);
    assert Refine(d, worldX, worldZ, 1) == Probe(worldX - dis.x, worldZ - dis.z, dis.y);
    forall n: nat | 1 <= n
      ensures Refine(d, worldX, worldZ, n) == Probe(worldX, worldZ, dis.y)
    {
      if n > 1 {
        RefineSettles(d, worldX, worldZ, 0, n);
      }
    }
  }

  /** The water height SampleHeight finds under world point p. */
  function WaterHeightUnder(d: DisplacementMaps, p: Vec3): real
  {
    Refine(d, p.x, p.z, Iterations).height
  }

  lemma PlacedConcat(a: seq<BuoyanceVoxel>, ca: seq<Cell>, b: seq<BuoyanceVoxel>, cb: seq<Cell>,
                     min: Vec3, v: real, inverseTransform: Vec3 -> Vec3)
    requires Placed(a, ca, min, v, inverseTransform) && Placed(b, cb, min, v, inverseTransform)
    ensures Placed(a + b, ca + cb, min, v, inverseTransform)
  {
    forall n | 0 <= n < |a + b|
      ensures (a + b)[n].size == v
      ensures (a + b)[n].offset == inverseTransform(CellCentre(min, v, (ca + cb)[n]))
    {
      if n >= |a| {
        assert (a + b)[n] == b[n - |a|] && (ca + cb)[n] == cb[n - |a|];
      }
    }
  }

  /** The innermost loop of PopulateVoxels: one new cube per cell of row
      (i, j). */
  method PlaceRow(min: Vec3, v: real, inverseTransform: Vec3 -> Vec3, i: int, j: int, zCount: int)
    returns (row: seq<BuoyanceVoxel>)
    ensures Placed(row, Row(i, j, MaxInt(zCount, 0)), min, v, inverseTransform)
    ensures forall o :: o in row ==> fresh(o)
  {
    row := [];
    var k := 0;
    while k < zCount
      invariant 0 <= k <= MaxInt(zCount, 0)
      invariant Placed(row, Row(i, j, k), min, v, inverseTransform)
      invariant forall o :: o in row ==> fresh(o)
    {
      var offset := inverseTransform(CellCentre(min, v, Cell(i, j, k)));
      var voxel := new BuoyanceVoxel(v, offset);
      PlacedConcat(row, Row(i, j, k), [voxel], [Cell(i, j, k)], min, v, inverseTransform);
      row := row + [voxel];
      k := k + 1;
    }
  }

  /** The middle loop of PopulateVoxels: the rows of layer i. */
  method PlacePlane(min: Vec3, v: real, inverseTransform: Vec3 -> Vec3, i: int, yCount: int, zCount: int)
    returns (plane: seq<BuoyanceVoxel>)
    ensures Placed(plane, Plane(i, MaxInt(yCount, 0), MaxInt(zCount, 0)), min, v, inverseTransform)
    ensures forall o :: o in plane ==> fresh(o)
  {
    plane := [];
    var j := 0;
    while j < yCount
      invariant 0 <= j <= MaxInt(yCount, 0)
      invariant Placed(plane, Plane(i, j, MaxInt(zCount, 0)), min, v, inverseTransform)
      invariant forall o :: o in plane ==> fresh(o)
    {
      var row := PlaceRow(min, v, inverseTransform, i, j, zCount);
      PlacedConcat(plane, Plane(i, j, MaxInt(zCount, 0)), row, Row(i, j, MaxInt(zCount, 0)),
                   min, v, inverseTransform);
      plane := plane + row;
      j := j + 1;
    }
  }

  // ---------------------------------------------------------------------
  // The Buoyancy component

  class Buoyancy {
    const voxelSize: real
    const buoyancyFactor: real
    var voxels: seq<BuoyanceVoxel>
    /** The calls made on the attached Rigidbody so far, in order. */
    var calls: seq<RigidBodyCall>

    constructor (voxelSize: real, buoyancyFactor: real)
      ensures this.voxelSize == voxelSize && this.buoyancyFactor == buoyancyFactor
      ensures voxels == [] && calls == []
    {
      this.voxelSize := voxelSize;
      this.buoyancyFactor := buoyancyFactor;
      voxels := [];
      calls := [];
    }

    /** Fills the collider's bounds with cubes of side voxelSize, one per
        grid cell, x outermost and z innermost; each cube's offset is the
        cell centre in the body's local space. */
    method PopulateVoxels(boundsMin: Vec3, boundsSize: Vec3, inverseTransform: Vec3 -> Vec3)
      requires voxelSize != 0.0
      modifies this
      ensures calls == old(calls)
      ensures |voxels| == CellCount(boundsSize.x, voxelSize) * CellCount(boundsSize.y, voxelSize)
                          * CellCount(boundsSize.z, voxelSize)
      ensures Placed(voxels, Block(CellCount(boundsSize.x, voxelSize), CellCount(boundsSize.y, voxelSize),
                                   CellCount(boundsSize.z, voxelSize)),
                     boundsMin, voxelSize, inverseTransform)
      ensures forall v :: v in voxels ==> fresh(v)
      ensures voxelSize < 0.0 && boundsSize.x >= 0.0 ==> voxels == []
    {
      var xCount := FloorToInt(boundsSize.x / voxelSize);
      var yCount := FloorToInt(boundsSize.y / voxelSize);
      var zCount := FloorToInt(boundsSize.z / voxelSize);
      ghost var ny := MaxInt(yCount, 0);
      ghost var nz := MaxInt(zCount, 0);
      var built: seq<BuoyanceVoxel> := [];
      var i := 0;
      while i < xCount
        invariant 0 <= i <= MaxInt(xCount, 0)
        invariant calls == old(calls)
        invariant Placed(built, Block(i, ny, nz), boundsMin, voxelSize, inverseTransform)
        invariant forall v :: v in built ==> fresh(v)
      {
        var plane := PlacePlane(boundsMin, voxelSize, inverseTransform, i, yCount, zCount);
        PlacedConcat(built, Block(i, ny, nz), plane, Plane(i, ny, nz), boundsMin, voxelSize, inverseTransform);
        built := built + plane;
        i := i + 1;
      }
      assert MaxInt(xCount, 0) == CellCount(boundsSize.x, voxelSize);
      assert ny == CellCount(boundsSize.y, voxelSize);
      assert nz == CellCount(boundsSize.z, voxelSize);
      BlockLength(CellCount(boundsSize.x, voxelSize), CellCount(boundsSize.y, voxelSize),
                  CellCount(boundsSize.z, voxelSize));
      if voxelSize < 0.0 && boundsSize.x >= 0.0 {
        NegativeSizeNoCells(boundsSize.x, voxelSize);
      }
      voxels := built;
    }

    /** One physics step: every cube under water pushes the body up at its
        own position; the others add nothing. */
    method ApplyForces(toWorld: Vec3 -> Vec3)
      modifies this
      ensures voxels == old(voxels)
      ensures calls == old(calls) + (if |voxels| == 0 then []
                                     else VoxelForces(voxels, |voxels|, buoyancyFactor, toWorld))
    {
      // The calls of this step, in the order the loop makes them; the loop
      // itself changes nothing else, so they are appended in one go.
      var made: seq<RigidBodyCall> := [];
      var n := 0;
      while n < |voxels|
        modifies {}
        invariant 0 <= n <= |voxels|
        invariant made == (if |voxels| == 0 then []
                           else VoxelForces(voxels[..n], |voxels|, buoyancyFactor, toWorld))
      {
        var voxel := voxels[n];
        ForcesStep(voxels, n, |voxels|, buoyancyFactor, toWorld);
        if voxel.IsUnderWater(toWorld) {
          var displacedVolume := voxel.GetDisplacedVolume(toWorld);
          var force := VoxelForce(displacedVolume, |voxels|, buoyancyFactor);
          made := made + [AddForceAtPosition(force, voxel.GetPosition(toWorld))];
        }
        n := n + 1;
      }
      assert voxels[..n] == voxels;
      calls := calls + made;
    }

    /** One iteration's reads: the three maps at the sample point, summed. */
    method ReadDisplacement(sampleX: real, sampleZ: real, d: DisplacementMaps) returns (disX: real, disY: real, disZ: real)
      ensures Vec3(disX, disY, disZ) == Displacement(d, sampleX, sampleZ)
    {
      var size := d.dis1.width;
      var x1 := RawIndex(sampleX, d.lengthScale1, size);
      var y1 := RawIndex(sampleZ, d.lengthScale1, size);
      var x2 := RawIndex(sampleX, d.lengthScale2, size);
      var y2 := RawIndex(sampleZ, d.lengthScale2, size);
      var x3 := RawIndex(sampleX, d.lengthScale3, size);
      var y3 := RawIndex(sampleZ, d.lengthScale3, size);
      var c1 := GetPixel(d.dis1, x1, y1);
      var c2 := GetPixel(d.dis2, x2, y2);
      var c3 := GetPixel(d.dis3, x3, y3);
      disX := c1.x + c2.x + c3.x;
      disY := c1.y + c2.y + c3.y;
      disZ := c1.z + c2.z + c3.z;
    }

    /** The water height under the world point (worldX, worldZ): eight
        refinement iterations over the three displacement maps. */
    method SampleHeight(worldX: real, worldZ: real, d: DisplacementMaps) returns (height: real)
      ensures height == Refine(d, worldX, worldZ, Iterations).height
    {
      var sampleX := worldX;
      var sampleZ := worldZ;
      height := 0.0;
      var i := 0;
      while i < Iterations
        invariant 0 <= i <= Iterations
        invariant Refine(d, worldX, worldZ, i) == Probe(sampleX, sampleZ, height)
      {
        var disX, disY, disZ := ReadDisplacement(sampleX, sampleZ, d);
        sampleX := worldX - disX;
        height := disY;
        sampleZ := worldZ - disZ;
        i := i + 1;
      }
    }

    /** A read-back batch arrived: every cube takes the water height sampled
        under its current world position. */
    method OnDisplacementsReceived(d: DisplacementMaps, toWorld: Vec3 -> Vec3)
      modifies set v | v in voxels
      ensures forall v :: v in voxels ==> v.waterHeight == WaterHeightUnder(d, toWorld(v.offset))
    {
      var n := 0;
      while n < |voxels|
        invariant 0 <= n <= |voxels|
        invariant forall m :: 0 <= m < n ==> voxels[m].waterHeight == WaterHeightUnder(d, toWorld(voxels[m].offset))
      {
        var voxel := voxels[n];
        var worldPoint := voxel.GetPosition(toWorld);
        var height := SampleHeight(worldPoint.x, worldPoint.z, d);
        voxel.SetWaterHeight(height);
        n := n + 1;
      }
    }
  }
}
