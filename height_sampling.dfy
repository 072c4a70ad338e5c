/** Point sampling of the ocean's displacement and normal maps on the CPU:
    world XZ is scaled by each cascade's length scale into a UV, the UV is
    wrapped into [0,1), mapped to a clamped texel, and the three cascades'
    samples are summed. Textures are abstract lookups. */
module HeightSampling {
  import opened UnityMath

  /** A render texture read as a lookup from texel coordinates to the pixel's r, g, b. */
  datatype SampledTexture = SampledTexture(width: int, height: int, pixel: (int, int) -> Vec3)

  /** Render textures have at least one texel in each direction. */
  predicate ValidTexture(t: SampledTexture) {
    t.width >= 1 && t.height >= 1
  }

  /** One cascade as the generator exposes it. */
  datatype Cascade = Cascade(displacementMap: Option<SampledTexture>, normalMap: Option<SampledTexture>,
                             lengthScale: real)

  predicate ValidCascade(c: Cascade) {
    (c.displacementMap.Some? ==> ValidTexture(c.displacementMap.value)) &&
    (c.normalMap.Some? ==> ValidTexture(c.normalMap.value))
  }

  /** The generator's three cascades, indexed 0, 1, 2. */
  datatype OceanGenerator = OceanGenerator(cascade0: Cascade, cascade1: Cascade, cascade2: Cascade)

  predicate ValidGenerator(g: OceanGenerator) {
    ValidCascade(g.cascade0) && ValidCascade(g.cascade1) && ValidCascade(g.cascade2)
  }

  function CascadeAt(g: OceanGenerator, i: int): Cascade
    requires 0 <= i < 3
  {
    if i == 0 then g.cascade0 else if i == 1 then g.cascade1 else g.cascade2
  }

  /** `uv - floor(uv)`: the fractional part, in [0,1) even for negative input,
      and differing from the input by a whole number. */
  function Wrap(u: real): (r: real)
    ensures 0.0 <= r < 1.0
    ensures (u - r).Floor as real == u - r
  {
    u - FloorToInt(u) as real
  }

  /** Wrapping ignores whole-number shifts. */
  lemma WrapPeriodic(u: real, k: int)
    ensures Wrap(u + k as real) == Wrap(u)
  {
    FloorShift(u, k);
  }

  /** The texel a wrapped coordinate rounds to, clamped to `[0, size-1]`. */
  function TexelIndex(u: real, size: int): (r: int)
    requires size >= 1
    ensures 0 <= r <= size - 1
  {
    TexelOf(Wrap(u), size)
  }

  /** The texel a coordinate already wrapped into [0,1) rounds to, clamped. */
  function TexelOf(w: real, size: int): (r: int)
    requires size >= 1
    ensures 0 <= r <= size - 1
  {
    ClampInt(RoundToInt(w * size as real), 0, size - 1)
  }

  /** A coordinate that rounds up to `size` is clamped to the last texel; it
      does not wrap around to texel 0. */
  lemma RoundingToSizeClampsToLast(u: real, size: int)
    requires size >= 1 && RoundToInt(Wrap(u) * size as real) == size
    ensures TexelIndex(u, size) == size - 1
  {
  }

  /** An instance: on a 4-texel row the coordinate 0.95 rounds to 4 and reads texel 3. */
  lemma RoundingToSizeExample()
    ensures RoundToInt(Wrap(0.95) * 4.0) == 4 && TexelIndex(0.95, 4) == 3
  {
    assert FloorToInt(0.95) == 0;
    assert Wrap(0.95) * 4.0 == 3.8;
    assert (3.8).Floor == 3;
  }

  /** The texel index depends on the coordinate only modulo 1. */
  lemma TexelIndexPeriodic(u: real, k: int, size: int)
    requires size >= 1
    ensures TexelIndex(u + k as real, size) == TexelIndex(u, size)
  {
    WrapPeriodic(u, k);
  }

  /** `SampleRenderTexturePoint`: the pixel at the clamped texel of the wrapped uv. */
  function SamplePoint(t: SampledTexture, uv: Vec2): Vec3
    requires ValidTexture(t)
  {
    t.pixel(TexelIndex(uv.x, t.width), TexelIndex(uv.y, t.height))
  }

  /** The uv a world position maps to in a cascade of the given length scale. */
  function CascadeUv(p: Vec3, lengthScale: real): Vec2
    requires lengthScale > 0.0
  {
    Vec2(p.x / lengthScale, p.z / lengthScale)
  }

  lemma DivShift(x: real, k: int, l: real)
    requires l > 0.0
    ensures (x + k as real * l) / l == x / l + k as real
  {
  }

  /** Tiling: moving a world position by whole multiples of a cascade's length
      scale in x and z leaves the cascade's sample unchanged. */
  lemma SampleTiles(t: SampledTexture, p: Vec3, q: Vec3, lengthScale: real, kx: int, kz: int)
    requires ValidTexture(t) && lengthScale > 0.0
    requires q.x == p.x + kx as real * lengthScale && q.z == p.z + kz as real * lengthScale
    ensures SamplePoint(t, CascadeUv(q, lengthScale)) == SamplePoint(t, CascadeUv(p, lengthScale))
  {
    DivShift(p.x, kx, lengthScale);
    DivShift(p.z, kz, lengthScale);
    TexelIndexPeriodic(p.x / lengthScale, kx, t.width);
    TexelIndexPeriodic(p.z / lengthScale, kz, t.height);
  }

  /** A cascade takes part in a sample when its map exists and its length scale is positive. */
  predicate Active(texture: Option<SampledTexture>, lengthScale: real) {
    texture.Some? && lengthScale > 0.0
  }

  /** What cascade `i` adds to the displacement at `p`. */
  function HeightContribution(g: OceanGenerator, i: int, p: Vec3): Vec3
    requires ValidGenerator(g) && 0 <= i < 3
  {
    var c := CascadeAt(g, i);
    if Active(c.displacementMap, c.lengthScale)
    then SamplePoint(c.displacementMap.value, CascadeUv(p, c.lengthScale))
    else Zero
  }

  /** The summed displacement of cascades `0 .. n-1`. */
  function HeightSum(g: OceanGenerator, p: Vec3, n: nat): Vec3
    requires ValidGenerator(g) && n <= 3
  {
    if n == 0 then Zero else Add(HeightSum(g, p, n - 1), HeightContribution(g, n - 1, p))
  }

  /** The displacement `SampleOceanHeight` returns: zero without a generator. */
  function OceanHeight(gen: Option<OceanGenerator>, p: Vec3): Vec3
    requires gen.Some? ==> ValidGenerator(gen.value)
  {
    if gen.None? then Zero else HeightSum(gen.value, p, 3)
  }

  /** What cascade `i` adds to the slope sum at `p`: the normal sample's x and y. */
  function SlopeContribution(g: OceanGenerator, i: int, p: Vec3): Vec2
    requires ValidGenerator(g) && 0 <= i < 3
  {
    var c := CascadeAt(g, i);
    if Active(c.normalMap, c.lengthScale)
    then var s := SamplePoint(c.normalMap.value, CascadeUv(p, c.lengthScale)); Vec2(s.x, s.y)
    else Vec2(0.0, 0.0)
  }

  function SlopeSum(g: OceanGenerator, p: Vec3, n: nat): Vec2
    requires ValidGenerator(g) && n <= 3
  {
    if n == 0 then Vec2(0.0, 0.0)
    else
      var d := SlopeSum(g, p, n - 1);
      var e := SlopeContribution(g, n - 1, p);
      Vec2(d.x + e.x, d.y + e.y)
  }

  /** The normal `SampleOceanNormal` returns, before normalisation: up without a
      generator, otherwise `(-sum dx, 1, -sum dz)`. */
  function OceanNormal(gen: Option<OceanGenerator>, p: Vec3): Vec3
    requires gen.Some? ==> ValidGenerator(gen.value)
  {
    if gen.None? then Up
    else var d := SlopeSum(gen.value, p, 3); Vec3(-d.x, 1.0, -d.y)
  }

  /** A cascade without a map, or with a non-positive length scale, adds nothing. */
  lemma InactiveAddsNothing(g: OceanGenerator, p: Vec3, i: nat)
    requires ValidGenerator(g) && i < 3
    requires !Active(CascadeAt(g, i).displacementMap, CascadeAt(g, i).lengthScale)
    ensures HeightSum(g, p, i + 1) == HeightSum(g, p, i)
  {
  }

  /** With no active cascade at all the displacement is zero. */
  lemma {:induction false} NoActiveCascadeIsFlat(g: OceanGenerator, p: Vec3, n: nat)
    requires ValidGenerator(g) && n <= 3
    requires forall i :: 0 <= i < 3 ==> !Active(CascadeAt(g, i).displacementMap, CascadeAt(g, i).lengthScale)
    ensures HeightSum(g, p, n) == Zero
  {
    if n > 0 {
      NoActiveCascadeIsFlat(g, p, n - 1);
      InactiveAddsNothing(g, p, n - 1);
    }
  }

  /** Every cascade's sample is unchanged by a shift that is a whole multiple of
      that cascade's length scale, so the summed displacement tiles by it too. */
  lemma {:induction false} HeightSumTiles(g: OceanGenerator, p: Vec3, q: Vec3, n: nat)
    requires ValidGenerator(g) && n <= 3
    requires forall i :: 0 <= i < n ==>
      HeightContribution(g, i, q) == HeightContribution(g, i, p)
    ensures HeightSum(g, q, n) == HeightSum(g, p, n)
  {
    if n > 0 {
      HeightSumTiles(g, p, q, n - 1);
    }
  }

  /** A shift by whole multiples of cascade `i`'s length scale leaves its contribution unchanged. */
  lemma ContributionTiles(g: OceanGenerator, i: int, p: Vec3, q: Vec3, kx: int, kz: int)
    requires ValidGenerator(g) && 0 <= i < 3
    requires q.x == p.x + kx as real * CascadeAt(g, i).lengthScale
    requires q.z == p.z + kz as real * CascadeAt(g, i).lengthScale
    ensures HeightContribution(g, i, q) == HeightContribution(g, i, p)
  {
    var c := CascadeAt(g, i);
    if Active(c.displacementMap, c.lengthScale) {
      SampleTiles(c.displacementMap.value, p, q, c.lengthScale, kx, kz);
    }
  }

  /** `SampleOceanHeight`: the three cascades' displacements summed in a loop. */
  method SampleOceanHeight(p: Vec3, gen: Option<OceanGenerator>) returns (total: Vec3)
    requires gen.Some? ==> ValidGenerator(gen.value)
    ensures total == OceanHeight(gen, p)
  {
    if gen.None? {
      return Zero;
    }
    var g := gen.value;
    total := Zero;
    var i := 0;
    while i < 3
      invariant 0 <= i <= 3
      invariant total == HeightSum(g, p, i)
    {
      var c := CascadeAt(g, i);
      if c.displacementMap.Some? && c.lengthScale > 0.0 {
        var uv := Vec2(p.x / c.lengthScale, p.z / c.lengthScale);
        var displacement := SamplePoint(c.displacementMap.value, uv);
        total := Add(total, displacement);
      }
      i := i + 1;
    }
  }

  /** `SampleOceanNormal`: the three cascades' slopes summed in a loop, turned
      into an (unnormalised) normal whose y component is positive. */
  method SampleOceanNormal(p: Vec3, gen: Option<OceanGenerator>) returns (normal: Vec3)
    requires gen.Some? ==> ValidGenerator(gen.value)
    ensures normal == OceanNormal(gen, p)
    ensures normal.y > 0.0
  {
    if gen.None? {
      return Up;
    }
    var g := gen.value;
    var dx, dz := 0.0, 0.0;
    var i := 0;
    while i < 3
      invariant 0 <= i <= 3
      invariant Vec2(dx, dz) == SlopeSum(g, p, i)
    {
      var c := CascadeAt(g, i);
      if c.normalMap.Some? && c.lengthScale > 0.0 {
        var uv := Vec2(p.x / c.lengthScale, p.z / c.lengthScale);
        var s := SamplePoint(c.normalMap.value, uv);
        dx, dz := dx + s.x, dz + s.y;
      }
      i := i + 1;
    }
    normal := Vec3(-dx, 1.0, -dz);
  }

  /** `SampleOceanDataBatch`: one height (the displacement's y) and one normal per input point. */
  method SampleOceanDataBatch(positions: array<Vec3>, gen: Option<OceanGenerator>)
    returns (heights: array<real>, normals: array<Vec3>)
    requires gen.Some? ==> ValidGenerator(gen.value)
    ensures fresh(heights) && fresh(normals)
    ensures heights.Length == positions.Length && normals.Length == positions.Length
    ensures forall i :: 0 <= i < positions.Length ==>
      heights[i] == OceanHeight(gen, positions[i]).y && normals[i] == OceanNormal(gen, positions[i])
  {
    heights := new real[positions.Length];
    normals := new Vec3[positions.Length];
    var i := 0;
    while i < positions.Length
      invariant 0 <= i <= positions.Length
      invariant forall j :: 0 <= j < i ==>
        heights[j] == OceanHeight(gen, positions[j]).y && normals[j] == OceanNormal(gen, positions[j])
    {
      var displacement := SampleOceanHeight(positions[i], gen);
      heights[i] := displacement.y;
      normals[i] := SampleOceanNormal(positions[i], gen);
      i := i + 1;
    }
  }
}
