// GPU-sampled sphere-point buoyancy. The body carries the same sphere points
// as the CPU component, but a step uploads the world positions of a
// round-robin batch of them into a fixed-size sample buffer, lets the
// sampling shader fill in water height, normal, velocity and wave data, reads
// the buffer back and integrates each result: buoyancy, drag and a wave
// impact force. Without the buffer a CPU fallback samples the points directly.

module GpuBuoyancy {
  import opened UnityMath
  import opened PointBuoyancy

  datatype Vec4 = Vec4(x: real, y: real, z: real, w: real)

  const Vec4Zero: Vec4 := Vec4(0.0, 0.0, 0.0, 0.0)

  /** One entry of the buffer shared with the sampling shader; the shader
      puts the wave slope in `additionalData.y` and the wave height in
      `additionalData.z`. */
  datatype GPUSamplePoint = GPUSamplePoint(
    worldPosition: Vec3,
    waterHeight: real,
    waterNormal: Vec3,
    waterVelocity: Vec3,
    additionalData: Vec4)

  /** An entry with every field zero, as a new buffer array holds it. */
  const EmptyEntry: GPUSamplePoint := GPUSamplePoint(Zero, 0.0, Zero, Zero, Vec4Zero)

  /** The entry uploaded for a point at world position `wp`: no water yet,
      the normal straight up. */
  function UploadEntry(wp: Vec3): GPUSamplePoint {
    GPUSamplePoint(wp, 0.0, Up, Zero, Vec4Zero)
  }

  /** The sampling shader as the host sees it: each thread turns the entry
      it was given into the sampled one. */
  type Sampler = GPUSamplePoint -> GPUSamplePoint

  // ---------------------------------------------------------------------
  // Buffer sizing and the round-robin batch

  /** The buffer holds `min(maxGPUSamples, count)` entries: never more than
      either, and as many as one of them. */
  function BufferSize(maxGPUSamples: int, count: nat): (n: int)
    ensures n <= maxGPUSamples && n <= count
    ensures n == maxGPUSamples || n == count
  {
    MinInt(maxGPUSamples, count)
  }

  /** The list indices of a batch of `n` entries starting at `current`. */
  function RoundRobin(current: nat, count: nat, n: nat): (r: seq<int>)
    requires count > 0
    ensures |r| == n
    ensures forall i :: 0 <= i < n ==> r[i] == (current + i) % count
  {
    seq(n, i => (current + i) % count)
  }

  /** A batch no longer than the list names valid, pairwise distinct points,
      so no point is processed twice in one step; the next batch starts
      right after the last point of this one. */
  lemma RoundRobinValid(current: nat, count: nat, n: nat)
    requires count > 0 && n <= count
    ensures forall i :: 0 <= i < n ==> 0 <= RoundRobin(current, count, n)[i] < count
    ensures forall a, b :: 0 <= a < b < n ==> RoundRobin(current, count, n)[a] != RoundRobin(current, count, n)[b]
    ensures 0 <= (current + n) % count < count
    ensures n > 0 ==> (current + n) % count == (RoundRobin(current, count, n)[n - 1] + 1) % count
  {
    var r := RoundRobin(current, count, n);
    forall a, b | 0 <= a < b < n
      ensures r[a] != r[b]
    {
      ModDistinct(current + a, b - a, count);
    }
    if n > 0 {
      SuccessorMod(current + n - 1, count);
    }
  }

  // ---------------------------------------------------------------------
  // Wave impact

  /** How hard the hull slams into the water: the downward relative speed
      times the wave slope. */
  function SlammingIntensity(relativeVelocity: Vec3, waveSlope: real): real {
    Max(0.0, -relativeVelocity.y) * waveSlope
  }

  /** An upward push, only once the slamming intensity exceeds 0.1: the
      up vector scaled by intensity, volume, density and 50, which leaves
      only its y component non-zero. */
  function SlammingForce(s: BuoyancySettings, volume: real, relativeVelocity: Vec3, waveSlope: real): Vec3 {
    var intensity := SlammingIntensity(relativeVelocity, waveSlope);
    if intensity > 0.1 then Vec3(0.0, intensity * volume * s.waterDensity * 50.0, 0.0)
    else Zero
  }

  /** A push along the water normal, proportional to the wave height. */
  function WaveDrift(s: BuoyancySettings, volume: real, normal: Vec3, waveHeight: real): Vec3 {
    Scale(Scale(Scale(Scale(normal, waveHeight), volume), s.waterDensity), 0.5)
  }

  /** The added-mass reaction, opposing the motion relative to the water. */
  function AddedMassForce(s: BuoyancySettings, volume: real, relativeVelocity: Vec3): Vec3 {
    Scale(Scale(Scale(Neg(relativeVelocity), volume), s.waterDensity), 0.3)
  }

  /** `CalculateWaveImpactForce`: the terms summed onto a zero vector in
      the order slamming (when present), drift, added mass. */
  function WaveImpactForce(s: BuoyancySettings, volume: real, normal: Vec3, relativeVelocity: Vec3,
                           waveHeight: real, waveSlope: real): Vec3
  {
    Add(Add(Add(Zero, SlammingForce(s, volume, relativeVelocity, waveSlope)),
            WaveDrift(s, volume, normal, waveHeight)),
        AddedMassForce(s, volume, relativeVelocity))
  }

  /** Slamming happens only above the 0.1 threshold, and then pushes
      straight up (for a non-negative volume and density), strictly so for
      a positive volume and density. */
  lemma SlammingOnlyAboveThreshold(s: BuoyancySettings, volume: real, relativeVelocity: Vec3, waveSlope: real)
    ensures SlammingIntensity(relativeVelocity, waveSlope) <= 0.1 ==>
              SlammingForce(s, volume, relativeVelocity, waveSlope) == Zero
    ensures 0.0 <= volume && 0.0 <= s.waterDensity ==>
              SlammingForce(s, volume, relativeVelocity, waveSlope).x == 0.0 &&
              SlammingForce(s, volume, relativeVelocity, waveSlope).z == 0.0 &&
              0.0 <= SlammingForce(s, volume, relativeVelocity, waveSlope).y
    ensures SlammingIntensity(relativeVelocity, waveSlope) > 0.1 && 0.0 < volume && 0.0 < s.waterDensity ==>
              0.0 < SlammingForce(s, volume, relativeVelocity, waveSlope).y
  {
    var intensity := SlammingIntensity(relativeVelocity, waveSlope);
    if intensity > 0.1 {
      ProductSign(intensity, volume, s.waterDensity);
    }
  }

  lemma ProductSign(k: real, volume: real, density: real)
    requires k > 0.0
    ensures 0.0 <= volume && 0.0 <= density ==> 0.0 <= k * volume * density * 50.0
    ensures 0.0 < volume && 0.0 < density ==> 0.0 < k * volume * density * 50.0
  {
    var b := k * volume;
    if 0.0 <= volume && 0.0 <= density {
      MulNonNeg(k, volume);
      MulNonNeg(b, density);
    }
    if 0.0 < volume && 0.0 < density {
      MulPos(k, volume);
      MulPos(b, density);
    }
  }

  /** A point with no submerged volume feels no wave force at all. */
  lemma NoVolumeNoWaveForce(s: BuoyancySettings, normal: Vec3, relativeVelocity: Vec3, waveHeight: real, waveSlope: real)
    ensures WaveImpactForce(s, 0.0, normal, relativeVelocity, waveHeight, waveSlope) == Zero
  {
  }

  /** A point moving with the water feels only the drift: no slamming and
      no added mass. */
  lemma MovingWithWaterOnlyDrift(s: BuoyancySettings, volume: real, normal: Vec3, waveHeight: real, waveSlope: real)
    ensures WaveImpactForce(s, volume, normal, Zero, waveHeight, waveSlope) == WaveDrift(s, volume, normal, waveHeight)
  {
    assert SlammingIntensity(Zero, waveSlope) == 0.0;
    var drift := WaveDrift(s, volume, normal, waveHeight);
    assert SlammingForce(s, volume, Zero, waveSlope) == Zero;
    ScaleZero(volume, s.waterDensity);
    AddZero(drift);
  }

  /** The added-mass reaction of a point at rest relative to the water. */
  lemma ScaleZero(volume: real, density: real)
    ensures Scale(Scale(Scale(Neg(Zero), volume), density), 0.3) == Zero
  {
    assert Neg(Zero) == Zero;
  }

  // ---------------------------------------------------------------------
  // One point

  /** The point after `CalculateBuoyancyForPoint`, whose centre is
      `submersion` below the water: its volume, its buoyancy along its
      water normal, and, with wave forces on, the velocity it was sampled
      at and the drag that velocity causes. */
  function BuoyantPoint(s: BuoyancySettings, sc: Scene, p: BuoyancyPoint, submersion: real): BuoyancyPoint
    requires submersion > 0.0
  {
    var volume := SubmergedVolume(submersion, p.radius);
    var buoyancy := BuoyancyForce(s, p.waterNormal, volume);
    if s.enableWaveForces then
      var v := sc.pointVelocity(p.worldPosition);
      p.(submergedVolume := volume, velocity := v, force := Add(buoyancy, DragForce(s, v, volume)))
    else p.(submergedVolume := volume, force := buoyancy)
  }

  /** What `CalculateBuoyancyForPoint` adds to the totals. */
  function BuoyancyShare(s: BuoyancySettings, sc: Scene, p: BuoyancyPoint, submersion: real): Contribution
    requires submersion > 0.0
  {
    var volume := SubmergedVolume(submersion, p.radius);
    Contribution(volume, Scale(p.worldPosition, volume), BuoyancyForce(s, p.waterNormal, volume),
                 if s.enableWaveForces then DragForce(s, sc.pointVelocity(p.worldPosition), volume) else Zero)
  }

  /** How far the sampled water lies above the sampled point. */
  function GpuSubmersion(r: GPUSamplePoint): real {
    r.waterHeight - r.worldPosition.y
  }

  /** The point with the sample's position, height and normal copied in. */
  function WithSample(p: BuoyancyPoint, r: GPUSamplePoint): BuoyancyPoint {
    p.(worldPosition := r.worldPosition, waterHeight := r.waterHeight, waterNormal := r.waterNormal)
  }

  /** The wave force on a wet sample: the body's velocity at the sampled
      position against the water's, with the sample's wave height and slope. */
  function SampleWaveForce(s: BuoyancySettings, sc: Scene, p: BuoyancyPoint, r: GPUSamplePoint): Vec3
    requires GpuSubmersion(r) > 0.0
  {
    var relativeVelocity := Sub(sc.pointVelocity(r.worldPosition), r.waterVelocity);
    WaveImpactForce(s, SubmergedVolume(GpuSubmersion(r), p.radius), r.waterNormal, relativeVelocity,
                    r.additionalData.z, r.additionalData.y)
  }

  /** The point after `ProcessGPUSampleResult`. */
  function SampledPoint(s: BuoyancySettings, sc: Scene, p: BuoyancyPoint, r: GPUSamplePoint): BuoyancyPoint {
    var q := WithSample(p, r);
    var submersion := GpuSubmersion(r);
    if submersion > 0.0 then
      var b := BuoyantPoint(s, sc, q, submersion);
      if s.enableWaveForces then b.(force := Add(b.force, SampleWaveForce(s, sc, p, r))) else b
    else q.(submergedVolume := 0.0, force := Zero)
  }

  /** What `ProcessGPUSampleResult` adds to the totals; the wave force
      counts into the buoyancy total. */
  function SampleContribution(s: BuoyancySettings, sc: Scene, p: BuoyancyPoint, r: GPUSamplePoint): Contribution {
    var submersion := GpuSubmersion(r);
    if submersion > 0.0 then
      var c := BuoyancyShare(s, sc, WithSample(p, r), submersion);
      if s.enableWaveForces then c.(buoyancy := Add(c.buoyancy, SampleWaveForce(s, sc, p, r))) else c
    else NoContribution
  }

  /** A sample whose water is not above it leaves a dry point: no volume,
      no force, nothing added to the totals. */
  lemma DrySampleNoForce(s: BuoyancySettings, sc: Scene, p: BuoyancyPoint, r: GPUSamplePoint)
    requires GpuSubmersion(r) <= 0.0
    ensures SampledPoint(s, sc, p, r).submergedVolume == 0.0
    ensures SampledPoint(s, sc, p, r).force == Zero
    ensures SampleContribution(s, sc, p, r) == NoContribution
  {
  }

  /** A processed point's volume is the sphere's submerged volume, positive
      exactly when the sample is wet (for a positive radius), and it is
      what the point adds to the volume total. */
  lemma SampledVolume(s: BuoyancySettings, sc: Scene, p: BuoyancyPoint, r: GPUSamplePoint)
    requires 0.0 <= p.radius
    ensures var c := SampleContribution(s, sc, p, r);
            SampledPoint(s, sc, p, r).submergedVolume == c.volume &&
            0.0 <= c.volume <= SphereVolume(p.radius) &&
            (0.0 < p.radius ==> (0.0 < c.volume <==> 0.0 < GpuSubmersion(r)))
  {
    VolumeBounds(GpuSubmersion(r), p.radius);
  }

  /** A processed point's own force is exactly what it adds to the buoyancy
      and drag totals. */
  lemma SampledPointMatchesShare(s: BuoyancySettings, sc: Scene, p: BuoyancyPoint, r: GPUSamplePoint)
    ensures var c := SampleContribution(s, sc, p, r);
            SampledPoint(s, sc, p, r).force == Add(c.buoyancy, c.drag)
  {
    var submersion := GpuSubmersion(r);
    var c := SampleContribution(s, sc, p, r);
    if submersion > 0.0 {
      var volume := SubmergedVolume(submersion, p.radius);
      var b := BuoyancyForce(s, r.waterNormal, volume);
      if s.enableWaveForces {
        var d := DragForce(s, sc.pointVelocity(r.worldPosition), volume);
        var w := SampleWaveForce(s, sc, p, r);
        assert c.buoyancy == Add(b, w) && c.drag == d;
        assert SampledPoint(s, sc, p, r).force == Add(Add(b, d), w);
        AddSwap(b, d, w);
      } else {
        AddZero(b);
      }
    } else {
      AddZero(Zero);
    }
  }

  lemma AddSwap(a: Vec3, b: Vec3, c: Vec3)
    ensures Add(Add(a, b), c) == Add(Add(a, c), b)
  {
  }

  /** Without wave forces nothing is dragged, and a wet sample adds just its
      buoyancy along the sampled normal. */
  lemma NoWaveForcesNoDrag(s: BuoyancySettings, sc: Scene, p: BuoyancyPoint, r: GPUSamplePoint)
    requires !s.enableWaveForces && GpuSubmersion(r) > 0.0
    ensures SampleContribution(s, sc, p, r).drag == Zero
    ensures SampleContribution(s, sc, p, r).buoyancy
         == BuoyancyForce(s, r.waterNormal, SubmergedVolume(GpuSubmersion(r), p.radius))
  {
  }

  /** Processing keeps the point's place on the body and its size, and
      what a point adds depends on nothing else of it. */
  lemma SampledKeepsShape(s: BuoyancySettings, sc: Scene, p: BuoyancyPoint, q: BuoyancyPoint, r: GPUSamplePoint)
    requires p.localPosition == q.localPosition && p.radius == q.radius
    ensures SampledPoint(s, sc, p, r).localPosition == p.localPosition
    ensures SampledPoint(s, sc, p, r).radius == p.radius
    ensures SampleContribution(s, sc, p, r) == SampleContribution(s, sc, q, r)
  {
  }

  // ---------------------------------------------------------------------
  // The CPU fallback for one point

  /** The point after `UpdateBuoyancyPointCPU`: position, height and normal
      sampled on the CPU, then the same buoyancy step as for a GPU sample. */
  function CpuSampledPoint(s: BuoyancySettings, sc: Scene, p: BuoyancyPoint): BuoyancyPoint {
    var wp := WorldOf(sc, p);
    var q := p.(worldPosition := wp, waterHeight := sc.waterHeight(wp), waterNormal := sc.waterNormal(wp));
    var submersion := q.waterHeight - wp.y;
    if submersion > 0.0 then BuoyantPoint(s, sc, q, submersion)
    else q.(submergedVolume := 0.0, force := Zero)
  }

  /** What the shader should report for a point: the CPU's own sample. */
  function CpuEntry(sc: Scene, p: BuoyancyPoint, waterVelocity: Vec3, additionalData: Vec4): GPUSamplePoint {
    var wp := WorldOf(sc, p);
    GPUSamplePoint(wp, sc.waterHeight(wp), sc.waterNormal(wp), waterVelocity, additionalData)
  }

  /** The two paths agree. The CPU fallback adds to the totals what the
      CPU component's point update adds; a GPU result that reports the CPU's
      own sample adds the same volume, moment and drag, and without wave
      forces exactly the same contribution and the same updated point. */
  lemma CpuAndGpuAgree(s: BuoyancySettings, sc: Scene, p: BuoyancyPoint, waterVelocity: Vec3, additionalData: Vec4)
    ensures var g := SampleContribution(s, sc, p, CpuEntry(sc, p, waterVelocity, additionalData));
            var c := ContributionOf(s, sc, p);
            g.volume == c.volume && g.moment == c.moment && g.drag == c.drag
    ensures !s.enableWaveForces ==>
              SampleContribution(s, sc, p, CpuEntry(sc, p, waterVelocity, additionalData)) == ContributionOf(s, sc, p) &&
              SampledPoint(s, sc, p, CpuEntry(sc, p, waterVelocity, additionalData)) == CpuSampledPoint(s, sc, p)
  {
  }

  /** A wet point updated on the CPU adds to the totals exactly what the
      CPU component's point update adds. */
  lemma CpuShareIsContribution(s: BuoyancySettings, sc: Scene, p: BuoyancyPoint, q: BuoyancyPoint)
    requires q == p.(worldPosition := WorldOf(sc, p), waterHeight := sc.waterHeight(WorldOf(sc, p)),
                     waterNormal := sc.waterNormal(WorldOf(sc, p)))
    requires q.waterHeight - q.worldPosition.y > 0.0
    ensures BuoyancyShare(s, sc, q, q.waterHeight - q.worldPosition.y) == ContributionOf(s, sc, p)
  {
  }

  /** A dry point updated on the CPU adds nothing. */
  lemma CpuDryAddsNothing(s: BuoyancySettings, sc: Scene, p: BuoyancyPoint)
    requires sc.waterHeight(WorldOf(sc, p)) - WorldOf(sc, p).y <= 0.0
    ensures ContributionOf(s, sc, p) == NoContribution
  {
  }

  /** A CPU-updated point keeps its place and size, and its submerged
      volume is what it adds to the volume total. */
  lemma CpuSampledMatchesShare(s: BuoyancySettings, sc: Scene, p: BuoyancyPoint)
    ensures CpuSampledPoint(s, sc, p).localPosition == p.localPosition
    ensures CpuSampledPoint(s, sc, p).radius == p.radius
    ensures CpuSampledPoint(s, sc, p).submergedVolume == ContributionOf(s, sc, p).volume
  {
  }

  /** The force stored on a CPU-updated point is what it adds to the
      buoyancy and drag totals. */
  lemma CpuSampledForce(s: BuoyancySettings, sc: Scene, p: BuoyancyPoint)
    ensures CpuSampledPoint(s, sc, p).force == Add(ContributionOf(s, sc, p).buoyancy, ContributionOf(s, sc, p).drag)
  {
    if !s.enableWaveForces {
      var wp := WorldOf(sc, p);
      if sc.waterHeight(wp) - wp.y > 0.0 {
        AddZero(ContributionOf(s, sc, p).buoyancy);
      } else {
        AddZero(Zero);
      }
    }
  }

  lemma AddZero(a: Vec3)
    ensures Add(a, Zero) == a && Add(Zero, a) == a
  {
  }

  /** Points with the same place and size add the same to the totals. */
  lemma ContributionByShape(s: BuoyancySettings, sc: Scene, p: BuoyancyPoint, q: BuoyancyPoint)
    requires p.localPosition == q.localPosition && p.radius == q.radius
    ensures ContributionOf(s, sc, p) == ContributionOf(s, sc, q)
  {
  }

  // ---------------------------------------------------------------------
  // A batch

  /** The schedule names each point at most once. */
  predicate Distinct(sched: seq<int>) {
    forall a, b :: 0 <= a < b < |sched| ==> sched[a] != sched[b]
  }

  /** What the buffer holds after the shader has run on a batch: each
      scheduled point's upload entry, as the shader turned it. */
  function Results(sc: Scene, sampler: Sampler, ps: seq<BuoyancyPoint>, sched: seq<int>): (r: seq<GPUSamplePoint>)
    requires InList(ps, sched)
    ensures |r| == |sched|
    ensures forall i :: 0 <= i < |sched| ==> r[i] == sampler(UploadEntry(WorldOf(sc, ps[sched[i]])))
  {
    seq(|sched|, i requires 0 <= i < |sched| => sampler(UploadEntry(WorldOf(sc, ps[sched[i]]))))
  }

  /** The list after the `i`-th result has been processed into the point
      `sched[i]`, one result after another. */
  function Processed(s: BuoyancySettings, sc: Scene, ps: seq<BuoyancyPoint>, sched: seq<int>,
                     rs: seq<GPUSamplePoint>): (q: seq<BuoyancyPoint>)
    requires InList(ps, sched) && |rs| == |sched|
    ensures |q| == |ps|
  {
    if |sched| == 0 then ps
    else
      var q := Processed(s, sc, ps, sched[..|sched| - 1], rs[..|rs| - 1]);
      var k := sched[|sched| - 1];
      q[k := SampledPoint(s, sc, q[k], rs[|rs| - 1])]
  }

  /** What processing the batch adds to freshly reset totals. */
  function SampleTotals(s: BuoyancySettings, sc: Scene, ps: seq<BuoyancyPoint>, sched: seq<int>,
                        rs: seq<GPUSamplePoint>): Contribution
    requires InList(ps, sched) && |rs| == |sched|
  {
    if |sched| == 0 then NoContribution
    else AddContribution(SampleTotals(s, sc, ps, sched[..|sched| - 1], rs[..|rs| - 1]),
                         SampleContribution(s, sc, ps[sched[|sched| - 1]], rs[|rs| - 1]))
  }

  /** The water velocity one result leaves in the velocity store: recorded
      for a wet sample with wave forces on, when the index is inside the store. */
  function StoreVelocity(s: BuoyancySettings, vs: seq<Vec3>, k: int, r: GPUSamplePoint): seq<Vec3> {
    if GpuSubmersion(r) > 0.0 && s.enableWaveForces && 0 <= k < |vs| then vs[k := r.waterVelocity] else vs
  }

  /** The velocity store after the whole batch. */
  function StoredVelocities(s: BuoyancySettings, vs: seq<Vec3>, sched: seq<int>, rs: seq<GPUSamplePoint>): (r: seq<Vec3>)
    requires |rs| == |sched|
    ensures |r| == |vs|
  {
    if |sched| == 0 then vs
    else StoreVelocity(s, StoredVelocities(s, vs, sched[..|sched| - 1], rs[..|rs| - 1]),
                       sched[|sched| - 1], rs[|rs| - 1])
  }

  /** Processing one more result: the point it belongs to is processed,
      what that point contributes is added to the totals (the same as for
      the unprocessed point) and its velocity is stored. */
  lemma ProcessStep(s: BuoyancySettings, sc: Scene, ps: seq<BuoyancyPoint>, sched: seq<int>, rs: seq<GPUSamplePoint>,
                    vs: seq<Vec3>, k: int, r: GPUSamplePoint)
    requires InList(ps, sched) && |rs| == |sched| && 0 <= k < |ps|
    ensures InList(ps, sched + [k])
    ensures var q := Processed(s, sc, ps, sched, rs);
            Processed(s, sc, ps, sched + [k], rs + [r]) == q[k := SampledPoint(s, sc, q[k], r)] &&
            SampleTotals(s, sc, ps, sched + [k], rs + [r]) ==
              AddContribution(SampleTotals(s, sc, ps, sched, rs), SampleContribution(s, sc, q[k], r))
    ensures StoredVelocities(s, vs, sched + [k], rs + [r]) == StoreVelocity(s, StoredVelocities(s, vs, sched, rs), k, r)
  {
    assert (sched + [k])[..|sched|] == sched;
    assert (rs + [r])[..|rs|] == rs;
    var q := Processed(s, sc, ps, sched, rs);
    ProcessedKeepsShape(s, sc, ps, sched, rs);
    SampledKeepsShape(s, sc, q[k], ps[k], r);
  }

  /** The prefix of a schedule is a schedule of the same list. */
  lemma InListPrefix(ps: seq<BuoyancyPoint>, sched: seq<int>, n: nat)
    requires InList(ps, sched) && n <= |sched|
    ensures InList(ps, sched[..n])
  {
    assert forall m :: 0 <= m < n ==> sched[..n][m] == sched[m];
  }

  /** Processing keeps every point's place on the body and its size. */
  lemma {:induction false} ProcessedKeepsShape(s: BuoyancySettings, sc: Scene, ps: seq<BuoyancyPoint>, sched: seq<int>,
                                               rs: seq<GPUSamplePoint>)
    requires InList(ps, sched) && |rs| == |sched|
    ensures forall j :: 0 <= j < |ps| ==>
              Processed(s, sc, ps, sched, rs)[j].localPosition == ps[j].localPosition &&
              Processed(s, sc, ps, sched, rs)[j].radius == ps[j].radius
  {
    if |sched| > 0 {
      ProcessedKeepsShape(s, sc, ps, sched[..|sched| - 1], rs[..|rs| - 1]);
    }
  }

  /** With a schedule that names each point at most once, every scheduled
      point ends up processed with its own result, and every other point is
      left as it was. */
  lemma {:induction false} ProcessedPointwise(s: BuoyancySettings, sc: Scene, ps: seq<BuoyancyPoint>, sched: seq<int>,
                                              rs: seq<GPUSamplePoint>)
    requires InList(ps, sched) && |rs| == |sched| && Distinct(sched)
    ensures forall i :: 0 <= i < |sched| ==>
              Processed(s, sc, ps, sched, rs)[sched[i]] == SampledPoint(s, sc, ps[sched[i]], rs[i])
    ensures forall j :: 0 <= j < |ps| && j !in sched ==> Processed(s, sc, ps, sched, rs)[j] == ps[j]
  {
    if |sched| > 0 {
      var n := |sched| - 1;
      var init, rinit := sched[..n], rs[..n];
      assert sched == init + [sched[n]];
      ProcessedPointwise(s, sc, ps, init, rinit);
      var q := Processed(s, sc, ps, init, rinit);
      assert sched[n] !in init by {
        forall i | 0 <= i < n ensures init[i] != sched[n] {
          assert init[i] == sched[i];
        }
      }
      forall i | 0 <= i < n
        ensures Processed(s, sc, ps, sched, rs)[sched[i]] == SampledPoint(s, sc, ps[sched[i]], rs[i])
      {
        assert init[i] == sched[i] && rinit[i] == rs[i];
      }
    }
  }

  /** The velocity store keeps its entries for points outside the batch,
      and all of them without wave forces; with each point scheduled once, a
      scheduled point's entry is its result's water velocity when that
      sample is wet and wave forces are on, and stays as it was otherwise. */
  lemma {:induction false} StoredVelocitiesPointwise(s: BuoyancySettings, vs: seq<Vec3>, sched: seq<int>,
                                                     rs: seq<GPUSamplePoint>)
    requires |rs| == |sched|
    ensures !s.enableWaveForces ==> StoredVelocities(s, vs, sched, rs) == vs
    ensures forall j :: 0 <= j < |vs| && j !in sched ==> StoredVelocities(s, vs, sched, rs)[j] == vs[j]
    ensures Distinct(sched) ==>
              forall i :: 0 <= i < |sched| && 0 <= sched[i] < |vs| ==>
                StoredVelocities(s, vs, sched, rs)[sched[i]] ==
                  if GpuSubmersion(rs[i]) > 0.0 && s.enableWaveForces then rs[i].waterVelocity else vs[sched[i]]
  {
    if |sched| > 0 {
      var n := |sched| - 1;
      var init, rinit := sched[..n], rs[..n];
      assert sched == init + [sched[n]];
      StoredVelocitiesPointwise(s, vs, init, rinit);
      if Distinct(sched) {
        assert Distinct(init) by {
          forall a, b | 0 <= a < b < n ensures init[a] != init[b] {
            assert init[a] == sched[a] && init[b] == sched[b];
          }
        }
        assert sched[n] !in init by {
          forall i | 0 <= i < n ensures init[i] != sched[n] {
            assert init[i] == sched[i];
          }
        }
        forall i | 0 <= i < n && 0 <= sched[i] < |vs|
          ensures StoredVelocities(s, vs, sched, rs)[sched[i]] ==
                  if GpuSubmersion(rs[i]) > 0.0 && s.enableWaveForces then rs[i].waterVelocity else vs[sched[i]]
        {
          assert init[i] == sched[i] && rinit[i] == rs[i];
        }
      }
    }
  }

  /** A batch adds a non-negative volume to the totals, for non-negative radii. */
  lemma {:induction false} SampleVolumeSign(s: BuoyancySettings, sc: Scene, ps: seq<BuoyancyPoint>, sched: seq<int>,
                                            rs: seq<GPUSamplePoint>)
    requires InList(ps, sched) && |rs| == |sched| && NonNegativeRadii(ps)
    ensures 0.0 <= SampleTotals(s, sc, ps, sched, rs).volume
  {
    if |sched| > 0 {
      var n := |sched| - 1;
      InListPrefix(ps, sched, n);
      SampleVolumeSign(s, sc, ps, sched[..n], rs[..n]);
      SampledVolume(s, sc, ps[sched[n]], rs[n]);
    }
  }

  /** A batch whose every sample is dry adds nothing to the totals. */
  lemma {:induction false} DryBatchAddsNothing(s: BuoyancySettings, sc: Scene, ps: seq<BuoyancyPoint>, sched: seq<int>,
                                               rs: seq<GPUSamplePoint>)
    requires InList(ps, sched) && |rs| == |sched|
    requires forall i :: 0 <= i < |rs| ==> GpuSubmersion(rs[i]) <= 0.0
    ensures SampleTotals(s, sc, ps, sched, rs) == NoContribution
  {
    if |sched| > 0 {
      var n := |sched| - 1;
      InListPrefix(ps, sched, n);
      assert forall i :: 0 <= i < n ==> rs[..n][i] == rs[i];
      DryBatchAddsNothing(s, sc, ps, sched[..n], rs[..n]);
      DrySampleNoForce(s, sc, ps[sched[n]], rs[n]);
      AddNothing(SampleTotals(s, sc, ps, sched[..n], rs[..n]));
    }
  }

  /** Adding nothing leaves the totals as they were. */
  lemma AddNothing(t: Contribution)
    ensures AddContribution(t, NoContribution) == t
  {
    AddZero(t.moment);
    AddZero(t.buoyancy);
    AddZero(t.drag);
  }

  lemma AddAssoc(a: Vec3, b: Vec3, c: Vec3)
    ensures Add(Add(a, b), c) == Add(a, Add(b, c))
  {
  }

  // ---------------------------------------------------------------------
  // The CPU fallback for a whole step

  /** The list after the CPU fallback has updated the scheduled points one
      after another. */
  function CpuSampled(s: BuoyancySettings, sc: Scene, ps: seq<BuoyancyPoint>, sched: seq<int>): (r: seq<BuoyancyPoint>)
    requires InList(ps, sched)
    ensures |r| == |ps|
  {
    if |sched| == 0 then ps
    else
      var q := CpuSampled(s, sc, ps, sched[..|sched| - 1]);
      var k := sched[|sched| - 1];
      q[k := CpuSampledPoint(s, sc, q[k])]
  }

  /** The CPU fallback keeps every point's place on the body and its size,
      so what a point contributes does not change either. */
  lemma {:induction false} CpuSampledKeepsShape(s: BuoyancySettings, sc: Scene, ps: seq<BuoyancyPoint>, sched: seq<int>)
    requires InList(ps, sched)
    ensures forall j :: 0 <= j < |ps| ==>
              CpuSampled(s, sc, ps, sched)[j].localPosition == ps[j].localPosition &&
              CpuSampled(s, sc, ps, sched)[j].radius == ps[j].radius
  {
    if |sched| > 0 {
      var n := |sched| - 1;
      InListPrefix(ps, sched, n);
      CpuSampledKeepsShape(s, sc, ps, sched[..n]);
      CpuSampledMatchesShare(s, sc, CpuSampled(s, sc, ps, sched[..n])[sched[n]]);
    }
  }

  /** After the fallback every scheduled point has been updated from its
      own sample (however often it was scheduled) and every other point is
      left as it was. */
  lemma {:induction false} CpuSampledPointwise(s: BuoyancySettings, sc: Scene, ps: seq<BuoyancyPoint>, sched: seq<int>)
    requires InList(ps, sched)
    ensures forall j :: 0 <= j < |ps| ==>
              CpuSampled(s, sc, ps, sched)[j] == if j in sched then CpuSampledPoint(s, sc, ps[j]) else ps[j]
  {
    if |sched| > 0 {
      var n := |sched| - 1;
      var init := sched[..n];
      assert sched == init + [sched[n]];
      InListPrefix(ps, sched, n);
      CpuSampledPointwise(s, sc, ps, init);
      CpuResampleSame(s, sc, ps[sched[n]]);
    }
  }

  /** Updating one more scheduled point on the CPU updates it in the list
      and adds its own contribution to the totals. */
  lemma CpuSampleStep(s: BuoyancySettings, sc: Scene, ps: seq<BuoyancyPoint>, sched: seq<int>, k: int)
    requires InList(ps, sched + [k]) && 0 <= k < |ps|
    ensures InList(ps, sched)
    ensures var q := CpuSampled(s, sc, ps, sched);
            CpuSampled(s, sc, ps, sched + [k]) == q[k := CpuSampledPoint(s, sc, q[k])] &&
            ContributionOf(s, sc, q[k]) == ContributionOf(s, sc, ps[k])
    ensures Accumulate(ContributionFn(s, sc), ps, sched + [k]) ==
            AddContribution(Accumulate(ContributionFn(s, sc), ps, sched), ContributionOf(s, sc, ps[k]))
  {
    InListPrefix(ps, sched + [k], |sched|);
    assert (sched + [k])[..|sched|] == sched;
    CpuSampledKeepsShape(s, sc, ps, sched);
    ContributionByShape(s, sc, CpuSampled(s, sc, ps, sched)[k], ps[k]);
  }

  /** Updating an updated point again gives the same point: the sample
      depends only on where the point sits on the body and its size. */
  lemma CpuResampleSame(s: BuoyancySettings, sc: Scene, p: BuoyancyPoint)
    ensures CpuSampledPoint(s, sc, CpuSampledPoint(s, sc, p)) == CpuSampledPoint(s, sc, p)
  {
    CpuSampledMatchesShare(s, sc, p);
  }

  // ---------------------------------------------------------------------
  // Hull points

  /** `max(3, round(extent / 3))` points along one axis. */
  function HullPointsAlong(extent: real): (n: int)
    ensures n >= 3
    ensures n == 3 || n == RoundToInt(extent / 3.0)
  {
    MaxInt(3, RoundToInt(extent / 3.0))
  }

  /** Two layers: the hull bottom and, 0.3 of the height above it, the sides. */
  const HullLayers: int := 2

  /** The shared radius: 0.7 of the smaller horizontal extent spread over
      the points along both axes. */
  function HullRadius(localBounds: Vec3): real {
    Min(localBounds.x, localBounds.z) / (HullPointsAlong(localBounds.x) + HullPointsAlong(localBounds.z)) as real * 0.7
  }

  /** The height of layer `y`, from half the height below the centre. */
  function HullHeight(localBounds: Vec3, y: int): real {
    -localBounds.y * 0.5 + y as real * localBounds.y * 0.3
  }

  /** The hull point at length index `z`, width index `x` and layer `y`. */
  function HullPoint(localBounds: Vec3, z: int, x: int, y: int): BuoyancyPoint {
    NewPoint(Vec3(GridCoordinate(x, HullPointsAlong(localBounds.x), localBounds.x),
                  HullHeight(localBounds, y),
                  GridCoordinate(z, HullPointsAlong(localBounds.z), localBounds.z)),
             HullRadius(localBounds))
  }

  /** Layers 0 .. y-1 at cell (z, x). */
  function HullStack(localBounds: Vec3, z: int, x: int, y: nat): (r: seq<BuoyancyPoint>)
    ensures |r| == y
  {
    if y == 0 then [] else HullStack(localBounds, z, x, y - 1) + [HullPoint(localBounds, z, x, y - 1)]
  }

  /** Cells (z, 0) .. (z, x-1), each with both layers. */
  function HullRow(localBounds: Vec3, z: int, x: nat): seq<BuoyancyPoint> {
    if x == 0 then [] else HullRow(localBounds, z, x - 1) + HullStack(localBounds, z, x - 1, HullLayers)
  }

  /** Rows 0 .. z-1, each across the whole width. */
  function HullRows(localBounds: Vec3, z: nat): seq<BuoyancyPoint> {
    if z == 0 then [] else HullRows(localBounds, z - 1) + HullRow(localBounds, z - 1, HullPointsAlong(localBounds.x))
  }

  /** The points generated for a collider whose size in local space is `localBounds`. */
  function HullPoints(localBounds: Vec3): seq<BuoyancyPoint> {
    HullRows(localBounds, HullPointsAlong(localBounds.z))
  }

  /** A hull point lies inside the collider's box horizontally, on the
      bottom layer or the side layer, with the shared radius and dry. */
  predicate HullPlaced(localBounds: Vec3, p: BuoyancyPoint) {
    -Abs(localBounds.x) / 2.0 <= p.localPosition.x <= Abs(localBounds.x) / 2.0 &&
    -Abs(localBounds.z) / 2.0 <= p.localPosition.z <= Abs(localBounds.z) / 2.0 &&
    (p.localPosition.y == -localBounds.y * 0.5 || p.localPosition.y == -localBounds.y * 0.5 + localBounds.y * 0.3) &&
    p.radius == HullRadius(localBounds) &&
    p.submergedVolume == 0.0
  }

  lemma {:induction false} HullStackPlaced(localBounds: Vec3, z: int, x: int, y: nat)
    requires 0 <= z < HullPointsAlong(localBounds.z) && 0 <= x < HullPointsAlong(localBounds.x) && y <= HullLayers
    ensures forall n :: 0 <= n < y ==> HullPlaced(localBounds, HullStack(localBounds, z, x, y)[n])
  {
    if y > 0 {
      HullStackPlaced(localBounds, z, x, y - 1);
      GridCoordinateInside(x, HullPointsAlong(localBounds.x), localBounds.x);
      GridCoordinateInside(z, HullPointsAlong(localBounds.z), localBounds.z);
      assert HullHeight(localBounds, 0) == -localBounds.y * 0.5;
      assert HullHeight(localBounds, 1) == -localBounds.y * 0.5 + localBounds.y * 0.3;
    }
  }

  /** Every element of `a + b` is placed when those of `a` and `b` are. */
  lemma ConcatPlaced(localBounds: Vec3, a: seq<BuoyancyPoint>, b: seq<BuoyancyPoint>)
    requires forall n :: 0 <= n < |a| ==> HullPlaced(localBounds, a[n])
    requires forall n :: 0 <= n < |b| ==> HullPlaced(localBounds, b[n])
    ensures forall n :: 0 <= n < |a + b| ==> HullPlaced(localBounds, (a + b)[n])
  {
    forall n | 0 <= n < |a + b| ensures HullPlaced(localBounds, (a + b)[n]) {
      if n < |a| { assert (a + b)[n] == a[n]; } else { assert (a + b)[n] == b[n - |a|]; }
    }
  }

  /** `x` cells hold `2x` points, all placed. */
  lemma {:induction false} HullRowPlaced(localBounds: Vec3, z: int, x: nat)
    requires 0 <= z < HullPointsAlong(localBounds.z) && x <= HullPointsAlong(localBounds.x)
    ensures |HullRow(localBounds, z, x)| == HullLayers * x
    ensures forall n :: 0 <= n < |HullRow(localBounds, z, x)| ==> HullPlaced(localBounds, HullRow(localBounds, z, x)[n])
  {
    if x > 0 {
      HullRowPlaced(localBounds, z, x - 1);
      HullStackPlaced(localBounds, z, x - 1, HullLayers);
      ConcatPlaced(localBounds, HullRow(localBounds, z, x - 1), HullStack(localBounds, z, x - 1, HullLayers));
    }
  }

  /** `z` rows hold `z · width · 2` points, all placed. */
  lemma {:induction false} HullRowsPlaced(localBounds: Vec3, z: nat)
    requires z <= HullPointsAlong(localBounds.z)
    ensures |HullRows(localBounds, z)| == z * (HullLayers * HullPointsAlong(localBounds.x))
    ensures forall n :: 0 <= n < |HullRows(localBounds, z)| ==> HullPlaced(localBounds, HullRows(localBounds, z)[n])
  {
    if z > 0 {
      var w := HullPointsAlong(localBounds.x);
      HullRowsPlaced(localBounds, z - 1);
      HullRowPlaced(localBounds, z - 1, w);
      ConcatPlaced(localBounds, HullRows(localBounds, z - 1), HullRow(localBounds, z - 1, w));
      assert z * (HullLayers * w) == (z - 1) * (HullLayers * w) + HullLayers * w;
    }
  }

  /** The hull gets `length · width · 2 >= 18` points, all placed. */
  lemma HullPointsShape(localBounds: Vec3)
    ensures |HullPoints(localBounds)| == HullPointsAlong(localBounds.z) * (HullLayers * HullPointsAlong(localBounds.x))
    ensures |HullPoints(localBounds)| >= 18
    ensures forall n :: 0 <= n < |HullPoints(localBounds)| ==> HullPlaced(localBounds, HullPoints(localBounds)[n])
  {
    var l := HullPointsAlong(localBounds.z);
    var w := HullPointsAlong(localBounds.x);
    HullRowsPlaced(localBounds, l);
    MulMonoInt(HullLayers * w, 3, l);
    assert (HullLayers * w) * l == l * (HullLayers * w);
  }

  // ---------------------------------------------------------------------
  // Forces applied to the body

  /** What the engine reports about the body when the forces are applied:
      its angular velocity, its up and right axes in world space, and the
      angle in degrees between its up axis and world up. */
  datatype BodyState = BodyState(angularVelocity: Vec3, up: Vec3, right: Vec3, rollAngle: real)

  /** The anti-roll torque (only past 5 degrees) and the pitch damping. */
  function StabilityCalls(totalVolume: real, b: BodyState): seq<RigidBodyCall> {
    var pitchVelocity := Dot(b.angularVelocity, b.right);
    (if b.rollAngle > 5.0 then [AddTorque(Scale(Scale(Scale(Cross(b.up, Up), b.rollAngle), totalVolume), 10.0))] else [])
    + [AddTorque(Scale(Scale(Scale(Neg(b.right), pitchVelocity), totalVolume), 5.0))]
  }

  /** The calls `ApplyForces` makes: none while nothing is submerged;
      otherwise the total buoyancy at the centre of buoyancy, the total drag,
      the angular drag, and the stability torques. */
  function GpuForceCalls(s: BuoyancySettings, totalVolume: real, totalBuoyancy: Vec3, totalDrag: Vec3,
                         centre: Vec3, b: BodyState): seq<RigidBodyCall>
  {
    if totalVolume <= 0.0 then []
    else
      [AddForceAtPosition(totalBuoyancy, centre),
       AddForce(totalDrag),
       AddTorque(Scale(Scale(Neg(b.angularVelocity), s.angularDragCoefficient), totalVolume))]
      + StabilityCalls(totalVolume, b)
  }

  /** A dry body gets nothing; a wet one gets the buoyancy at the centre
      first, then the drag, then only torques: four calls, or five when it
      rolls more than 5 degrees. */
  lemma GpuForceCallsShape(s: BuoyancySettings, totalVolume: real, totalBuoyancy: Vec3, totalDrag: Vec3,
                           centre: Vec3, b: BodyState)
    ensures var cs := GpuForceCalls(s, totalVolume, totalBuoyancy, totalDrag, centre, b);
            (totalVolume <= 0.0 ==> cs == []) &&
            (totalVolume > 0.0 ==>
               |cs| == (if b.rollAngle > 5.0 then 5 else 4) &&
               cs[0] == AddForceAtPosition(totalBuoyancy, centre) &&
               cs[1] == AddForce(totalDrag) &&
               forall i :: 2 <= i < |cs| ==> cs[i].AddTorque?)
  {
  }

  /** The anti-roll torque turns about an axis perpendicular to both the
      body's up axis and world up, so it never spins the body about either. */
  lemma AntiRollAxis(up: Vec3)
    ensures Dot(Cross(up, Up), up) == 0.0
    ensures Dot(Cross(up, Up), Up) == 0.0
  {
    assert Up == Vec3(0.0, 1.0, 0.0);
  }


  // ---------------------------------------------------------------------
  // Dispatch

  /** `ceil(n / 64)` thread groups of 64 threads: enough threads for every
      sample, and less than one group more. */
  function ThreadGroups(n: nat): (g: nat)
    ensures n <= 64 * g < n + 64
  {
    (n + 63) / 64
  }

  /** Moving a round-robin batch on by one entry. */
  lemma RoundRobinStep(current: nat, count: nat, i: nat)
    requires count > 0
    ensures RoundRobin(current, count, i + 1) == RoundRobin(current, count, i) + [(current + i) % count]
  {
  }

  // ---------------------------------------------------------------------
  // The component

  class OceanBuoyancyGPU {
    const settings: BuoyancySettings
    const useGPUSampling: bool
    const maxGPUSamples: int
    var points: seq<BuoyancyPoint>
    /** The host copy of the sample buffer. */
    var samplePointsArray: array?<GPUSamplePoint>
    /** Whether the compute buffer exists. */
    var bufferLive: bool
    /** The water velocity last sampled at each point. */
    var previousWaterVelocities: array?<Vec3>
    var currentSampleIndex: nat
    var lastUpdateTime: real
    var lastPosition: Vec3
    var totalSubmergedVolume: real
    var totalBuoyancyForce: Vec3
    var totalDragForce: Vec3
    var centerOfBuoyancy: Vec3
    /** The calls made on the rigid body so far, in order. */
    var calls: seq<RigidBodyCall>

    /** After `Start`: one stored velocity per point, and a live buffer
        holds at least one entry and no more than there are points. */
    predicate Valid()
      reads this
    {
      previousWaterVelocities != null && previousWaterVelocities.Length == |points| &&
      (bufferLive ==> samplePointsArray != null && 1 <= samplePointsArray.Length <= |points|)
    }

    constructor(settings: BuoyancySettings, useGPUSampling: bool, maxGPUSamples: int, points: seq<BuoyancyPoint>)
      ensures this.settings == settings && this.useGPUSampling == useGPUSampling
      ensures this.maxGPUSamples == maxGPUSamples && this.points == points
      ensures samplePointsArray == null && !bufferLive && previousWaterVelocities == null
      ensures currentSampleIndex == 0 && lastUpdateTime == 0.0 && lastPosition == Zero
      ensures Totals() == NoContribution && calls == []
    {
      this.settings := settings;
      this.useGPUSampling := useGPUSampling;
      this.maxGPUSamples := maxGPUSamples;
      this.points := points;
      samplePointsArray := null;
      bufferLive := false;
      previousWaterVelocities := null;
      currentSampleIndex := 0;
      lastUpdateTime := 0.0;
      lastPosition := Zero;
      totalSubmergedVolume := 0.0;
      totalBuoyancyForce := Zero;
      totalDragForce := Zero;
      centerOfBuoyancy := Zero;
      calls := [];
    }

    /** The totals as one value. */
    function Totals(): Contribution
      reads this
    {
      Contribution(totalSubmergedVolume, centerOfBuoyancy, totalBuoyancyForce, totalDragForce)
    }

    /** Appends the hull points for a collider whose size in local space is
        `localBounds`: along the length, then across, then the two layers. */
    method GenerateHullBuoyancyPoints(localBounds: Vec3)
      modifies this
      ensures points == old(points) + HullPoints(localBounds)
      ensures samplePointsArray == old(samplePointsArray) && bufferLive == old(bufferLive)
      ensures previousWaterVelocities == old(previousWaterVelocities) && currentSampleIndex == old(currentSampleIndex)
      ensures lastUpdateTime == old(lastUpdateTime) && lastPosition == old(lastPosition)
      ensures Totals() == old(Totals()) && calls == old(calls)
    {
      var pointsLength := HullPointsAlong(localBounds.z);
      var pointsWidth := HullPointsAlong(localBounds.x);
      var pointsHeight := HullLayers;
      for z := 0 to pointsLength
        invariant points == old(points) + HullRows(localBounds, z)
        invariant samplePointsArray == old(samplePointsArray) && bufferLive == old(bufferLive)
        invariant previousWaterVelocities == old(previousWaterVelocities) && currentSampleIndex == old(currentSampleIndex)
        invariant lastUpdateTime == old(lastUpdateTime) && lastPosition == old(lastPosition)
        invariant Totals() == old(Totals()) && calls == old(calls)
      {
        for x := 0 to pointsWidth
          invariant points == old(points) + HullRows(localBounds, z) + HullRow(localBounds, z, x)
          invariant samplePointsArray == old(samplePointsArray) && bufferLive == old(bufferLive)
          invariant previousWaterVelocities == old(previousWaterVelocities) && currentSampleIndex == old(currentSampleIndex)
          invariant lastUpdateTime == old(lastUpdateTime) && lastPosition == old(lastPosition)
          invariant Totals() == old(Totals()) && calls == old(calls)
        {
          for y := 0 to pointsHeight
            invariant points == old(points) + HullRows(localBounds, z) + HullRow(localBounds, z, x) + HullStack(localBounds, z, x, y)
            invariant samplePointsArray == old(samplePointsArray) && bufferLive == old(bufferLive)
            invariant previousWaterVelocities == old(previousWaterVelocities) && currentSampleIndex == old(currentSampleIndex)
            invariant lastUpdateTime == old(lastUpdateTime) && lastPosition == old(lastPosition)
            invariant Totals() == old(Totals()) && calls == old(calls)
          {
            points := points + [HullPoint(localBounds, z, x, y)];
          }
          AppendAssoc(old(points) + HullRows(localBounds, z), HullRow(localBounds, z, x), HullStack(localBounds, z, x, pointsHeight));
        }
        AppendAssoc(old(points), HullRows(localBounds, z), HullRow(localBounds, z, pointsWidth));
      }
    }

    /** With a collider (of local size `localBounds`) the hull points are
        generated; without one nothing changes. */
    method GenerateDefaultBuoyancyPoints(localBounds: Option<Vec3>)
      modifies this
      ensures points == old(points) + (if localBounds.Some? then HullPoints(localBounds.value) else [])
      ensures samplePointsArray == old(samplePointsArray) && bufferLive == old(bufferLive)
      ensures previousWaterVelocities == old(previousWaterVelocities) && currentSampleIndex == old(currentSampleIndex)
      ensures lastUpdateTime == old(lastUpdateTime) && lastPosition == old(lastPosition)
      ensures Totals() == old(Totals()) && calls == old(calls)
    {
      if localBounds.Some? {
        GenerateHullBuoyancyPoints(localBounds.value);
      }
    }

    /** A body without points gets the hull points, then one zero stored
        velocity per point, and the time and position are recorded. */
    method InitializeBuoyancy(localBounds: Option<Vec3>, now: real, position: Vec3)
      modifies this
      ensures points == old(points) + (if |old(points)| == 0 && localBounds.Some? then HullPoints(localBounds.value) else [])
      ensures previousWaterVelocities != null && fresh(previousWaterVelocities)
      ensures previousWaterVelocities[..] == seq(|points|, _ => Zero)
      ensures lastUpdateTime == now && lastPosition == position
      ensures samplePointsArray == old(samplePointsArray) && bufferLive == old(bufferLive)
      ensures currentSampleIndex == old(currentSampleIndex) && Totals() == old(Totals()) && calls == old(calls)
    {
      if |points| == 0 {
        GenerateDefaultBuoyancyPoints(localBounds);
      }
      previousWaterVelocities := new Vec3[|points|](_ => Zero);
      lastUpdateTime := now;
      lastPosition := position;
    }

    /** With GPU sampling on and a sampling shader present, allocates a
        buffer of `min(maxGPUSamples, count)` entries. A buffer of no entries
        cannot be created: that start-up ends without a buffer. */
    method InitializeGPUResources(hasShader: bool)
      modifies this
      ensures useGPUSampling && hasShader && BufferSize(maxGPUSamples, |points|) > 0 ==>
                bufferLive && samplePointsArray != null && fresh(samplePointsArray) &&
                samplePointsArray.Length == BufferSize(maxGPUSamples, |points|)
      ensures !(useGPUSampling && hasShader && BufferSize(maxGPUSamples, |points|) > 0) ==>
                bufferLive == old(bufferLive) && samplePointsArray == old(samplePointsArray)
      ensures points == old(points) && previousWaterVelocities == old(previousWaterVelocities)
      ensures lastUpdateTime == old(lastUpdateTime) && lastPosition == old(lastPosition)
      ensures currentSampleIndex == old(currentSampleIndex) && Totals() == old(Totals()) && calls == old(calls)
    {
      if !useGPUSampling || !hasShader {
        return;
      }
      var bufferSize := BufferSize(maxGPUSamples, |points|);
      if bufferSize <= 0 {
        return;
      }
      samplePointsArray := new GPUSamplePoint[bufferSize](_ => EmptyEntry);
      bufferLive := true;
    }

    /** `Start`: the points and the velocity store, then the GPU buffer. */
    method Start(localBounds: Option<Vec3>, hasShader: bool, now: real, position: Vec3)
      requires bufferLive ==> samplePointsArray != null && 1 <= samplePointsArray.Length <= |points|
      modifies this
      ensures Valid()
      ensures points == old(points) + (if |old(points)| == 0 && localBounds.Some? then HullPoints(localBounds.value) else [])
      ensures previousWaterVelocities[..] == seq(|points|, _ => Zero)
      ensures bufferLive == (old(bufferLive) || (useGPUSampling && hasShader && BufferSize(maxGPUSamples, |points|) > 0))
      ensures useGPUSampling && hasShader && BufferSize(maxGPUSamples, |points|) > 0 ==>
                samplePointsArray != null && fresh(samplePointsArray) &&
                samplePointsArray.Length == BufferSize(maxGPUSamples, |points|)
      ensures !(useGPUSampling && hasShader && BufferSize(maxGPUSamples, |points|) > 0) ==>
                samplePointsArray == old(samplePointsArray)
      ensures lastUpdateTime == now && lastPosition == position
      ensures currentSampleIndex == old(currentSampleIndex) && Totals() == old(Totals()) && calls == old(calls)
    {
      InitializeBuoyancy(localBounds, now, position);
      InitializeGPUResources(hasShader);
    }

    /** Integrates one sampled point whose centre lies `submersion` below
        the water: its volume, buoyancy and (with wave forces on) drag, added
        to the totals. */
    method CalculateBuoyancyForPoint(sc: Scene, point: BuoyancyPoint, submersion: real) returns (p: BuoyancyPoint)
      requires submersion > 0.0
      modifies this
      ensures p == BuoyantPoint(settings, sc, point, submersion)
      ensures Totals() == AddContribution(old(Totals()), BuoyancyShare(settings, sc, point, submersion))
      ensures points == old(points) && samplePointsArray == old(samplePointsArray) && bufferLive == old(bufferLive)
      ensures previousWaterVelocities == old(previousWaterVelocities) && currentSampleIndex == old(currentSampleIndex)
      ensures lastUpdateTime == old(lastUpdateTime) && lastPosition == old(lastPosition) && calls == old(calls)
    {
      p := point.(submergedVolume := SubmergedVolume(submersion, point.radius));
      totalSubmergedVolume := totalSubmergedVolume + p.submergedVolume;
      centerOfBuoyancy := Add(centerOfBuoyancy, Scale(p.worldPosition, p.submergedVolume));
      var buoyancyForce := BuoyancyForce(settings, p.waterNormal, p.submergedVolume);
      p := p.(force := buoyancyForce);
      totalBuoyancyForce := Add(totalBuoyancyForce, buoyancyForce);
      if settings.enableWaveForces {
        p := p.(velocity := sc.pointVelocity(p.worldPosition));
        var dragForce := DragForce(settings, p.velocity, p.submergedVolume);
        p := p.(force := Add(p.force, dragForce));
        totalDragForce := Add(totalDragForce, dragForce);
      } else {
        AddZero(totalDragForce);
      }
    }

    /** Integrates the result the shader returned for point `pointIndex`:
        the point takes the sampled position, height and normal; a wet point
        gets its buoyancy and, with wave forces on, the wave impact force
        (counted into the buoyancy total) and its water velocity stored; a
        dry point loses its volume and force. */
    method ProcessGPUSampleResult(sc: Scene, pointIndex: int, sampleResult: GPUSamplePoint)
      requires 0 <= pointIndex < |points| && previousWaterVelocities != null
      modifies this, previousWaterVelocities
      ensures points == old(points)[pointIndex := SampledPoint(settings, sc, old(points)[pointIndex], sampleResult)]
      ensures Totals() == AddContribution(old(Totals()), SampleContribution(settings, sc, old(points)[pointIndex], sampleResult))
      ensures previousWaterVelocities == old(previousWaterVelocities)
      ensures previousWaterVelocities[..] == StoreVelocity(settings, old(previousWaterVelocities[..]), pointIndex, sampleResult)
      ensures samplePointsArray == old(samplePointsArray) && bufferLive == old(bufferLive)
      ensures currentSampleIndex == old(currentSampleIndex) && calls == old(calls)
      ensures lastUpdateTime == old(lastUpdateTime) && lastPosition == old(lastPosition)
    {
      ghost var p0 := points[pointIndex];
      var point := WithSample(points[pointIndex], sampleResult);
      var submersion := point.waterHeight - point.worldPosition.y;
      if submersion > 0.0 {
        ghost var before := Totals();
        ghost var c := BuoyancyShare(settings, sc, point, submersion);
        point := CalculateBuoyancyForPoint(sc, point, submersion);
        if settings.enableWaveForces {
          var waterVelocity := sampleResult.waterVelocity;
          var relativeVelocity := Sub(sc.pointVelocity(point.worldPosition), waterVelocity);
          var waveHeight := sampleResult.additionalData.z;
          var waveSlope := sampleResult.additionalData.y;
          var waveForce := WaveImpactForce(settings, point.submergedVolume, point.waterNormal, relativeVelocity,
                                           waveHeight, waveSlope);
          assert waveForce == SampleWaveForce(settings, sc, p0, sampleResult);
          point := point.(force := Add(point.force, waveForce));
          AddAssoc(before.buoyancy, c.buoyancy, waveForce);
          totalBuoyancyForce := Add(totalBuoyancyForce, waveForce);
          assert Totals() == AddContribution(before, SampleContribution(settings, sc, p0, sampleResult));
          if pointIndex < previousWaterVelocities.Length {
            previousWaterVelocities[pointIndex] := waterVelocity;
          }
        }
        assert point == SampledPoint(settings, sc, p0, sampleResult);
      } else {
        point := point.(submergedVolume := 0.0, force := Zero);
        AddNothing(Totals());
      }
      points := points[pointIndex := point];
    }

    /** Writes the upload entries of the batch of `n` points starting at
        `currentSampleIndex` into the first `n` buffer entries. */
    method UploadSamples(sc: Scene, n: nat)
      requires samplePointsArray != null && n <= samplePointsArray.Length && |points| > 0
      modifies samplePointsArray
      ensures forall i :: 0 <= i < n ==>
                samplePointsArray[i] == UploadEntry(WorldOf(sc, points[(currentSampleIndex + i) % |points|]))
    {
      for i := 0 to n
        invariant forall j :: 0 <= j < i ==>
                    samplePointsArray[j] == UploadEntry(WorldOf(sc, points[(currentSampleIndex + j) % |points|]))
      {
        var pointIndex := (currentSampleIndex + i) % |points|;
        var point := points[pointIndex];
        samplePointsArray[i] := GPUSamplePoint(sc.toWorld(point.localPosition), 0.0, Up, Zero, Vec4Zero);
      }
    }

    /** The upload, the dispatch of `threadGroups` groups of 64 threads and
        the read-back: each thread below `sampleCount` turns its entry into
        the sampled one, the rest do nothing. */
    method RunSampler(sampler: Sampler, sampleCount: nat, threadGroups: nat)
      requires samplePointsArray != null && sampleCount <= samplePointsArray.Length
      requires sampleCount <= 64 * threadGroups
      modifies samplePointsArray
      ensures forall i :: 0 <= i < sampleCount ==> samplePointsArray[i] == sampler(old(samplePointsArray[i]))
      ensures forall i :: sampleCount <= i < samplePointsArray.Length ==> samplePointsArray[i] == old(samplePointsArray[i])
    {
      forall id | 0 <= id < 64 * threadGroups && id < sampleCount {
        samplePointsArray[id] := sampler(samplePointsArray[id]);
      }
    }

    /** Integrates the results read back from the buffer into the batch of
        points starting at `currentSampleIndex`, on freshly reset totals. */
    method ProcessResults(sc: Scene, results: seq<GPUSamplePoint>)
      requires |points| > 0 && previousWaterVelocities != null
      requires Totals() == NoContribution
      modifies this, previousWaterVelocities
      ensures samplePointsArray == old(samplePointsArray) && bufferLive == old(bufferLive)
      ensures previousWaterVelocities == old(previousWaterVelocities) && currentSampleIndex == old(currentSampleIndex)
      ensures lastUpdateTime == old(lastUpdateTime) && lastPosition == old(lastPosition) && calls == old(calls)
      ensures var sched := RoundRobin(currentSampleIndex, |old(points)|, |results|);
              InList(old(points), sched) &&
              points == Processed(settings, sc, old(points), sched, results) &&
              Totals() == SampleTotals(settings, sc, old(points), sched, results) &&
              previousWaterVelocities[..] == StoredVelocities(settings, old(previousWaterVelocities[..]), sched, results)
    {
      ghost var before := points;
      ghost var vs := previousWaterVelocities[..];
      for i := 0 to |results|
        invariant samplePointsArray == old(samplePointsArray) && bufferLive == old(bufferLive)
        invariant previousWaterVelocities == old(previousWaterVelocities) && currentSampleIndex == old(currentSampleIndex)
        invariant lastUpdateTime == old(lastUpdateTime) && lastPosition == old(lastPosition) && calls == old(calls)
        invariant BatchDone(sc, before, vs, results, i)
      {
        ProcessNext(sc, before, vs, results, i);
      }
      assert results[..|results|] == results;
    }

    /** The first `i` results have been integrated into the batch starting at
        `currentSampleIndex` of the list `before`, on a velocity store that
        held `vs`. */
    ghost predicate BatchDone(sc: Scene, before: seq<BuoyancyPoint>, vs: seq<Vec3>, results: seq<GPUSamplePoint>, i: nat)
      reads this, previousWaterVelocities
    {
      |before| > 0 && i <= |results| && previousWaterVelocities != null &&
      var sched := RoundRobin(currentSampleIndex, |before|, i);
      InList(before, sched) &&
      points == Processed(settings, sc, before, sched, results[..i]) &&
      Totals() == SampleTotals(settings, sc, before, sched, results[..i]) &&
      previousWaterVelocities[..] == StoredVelocities(settings, vs, sched, results[..i])
    }

    /** One turn of the processing loop: result `i` goes to the point
        `(currentSampleIndex + i) % count`. */
    method ProcessNext(sc: Scene, ghost before: seq<BuoyancyPoint>, ghost vs: seq<Vec3>, results: seq<GPUSamplePoint>, i: nat)
      requires BatchDone(sc, before, vs, results, i) && i < |results|
      modifies this, previousWaterVelocities
      ensures BatchDone(sc, before, vs, results, i + 1)
      ensures samplePointsArray == old(samplePointsArray) && bufferLive == old(bufferLive)
      ensures previousWaterVelocities == old(previousWaterVelocities) && currentSampleIndex == old(currentSampleIndex)
      ensures lastUpdateTime == old(lastUpdateTime) && lastPosition == old(lastPosition) && calls == old(calls)
    {
      var count := |points|;
      var pointIndex := (currentSampleIndex + i) % count;
      ghost var sched := RoundRobin(currentSampleIndex, count, i);
      RoundRobinStep(currentSampleIndex, count, i);
      assert results[..i + 1] == results[..i] + [results[i]];
      ProcessStep(settings, sc, before, sched, results[..i], vs, pointIndex, results[i]);
      ProcessGPUSampleResult(sc, pointIndex, results[i]);
    }

    /** One GPU step: record the time and position, reset the totals,
        upload the batch, run the shader, integrate the results, move the
        round-robin start on and turn the summed moment into the centre of
        buoyancy. */
    method UpdateBuoyancyPhysicsGPU(sc: Scene, sampler: Sampler, now: real, position: Vec3)
      requires Valid() && bufferLive
      modifies this, samplePointsArray, previousWaterVelocities
      ensures Valid() && bufferLive
      ensures samplePointsArray == old(samplePointsArray) && previousWaterVelocities == old(previousWaterVelocities)
      ensures lastUpdateTime == now && lastPosition == position
      ensures var sched := RoundRobin(old(currentSampleIndex), |old(points)|, samplePointsArray.Length);
              InList(old(points), sched) &&
              var rs := Results(sc, sampler, old(points), sched);
              points == Processed(settings, sc, old(points), sched, rs) &&
              previousWaterVelocities[..] == StoredVelocities(settings, old(previousWaterVelocities[..]), sched, rs) &&
              var acc := SampleTotals(settings, sc, old(points), sched, rs);
              totalSubmergedVolume == acc.volume && totalBuoyancyForce == acc.buoyancy &&
              totalDragForce == acc.drag && centerOfBuoyancy == Centre(acc)
      ensures currentSampleIndex == (old(currentSampleIndex) + samplePointsArray.Length) % |points|
      ensures calls == old(calls)
    {
      lastUpdateTime := now;
      lastPosition := position;
      ResetPhysicsData();
      var samplesToProcess := MinInt(samplePointsArray.Length, |points|);
      var results := SampleBatch(sc, sampler, samplesToProcess);
      ProcessResults(sc, results);
      currentSampleIndex := (currentSampleIndex + samplesToProcess) % |points|;
      CalculateCenterOfBuoyancy();
    }

    /** Zeroes the totals and the summed moment. */
    method ResetPhysicsData()
      modifies this
      ensures Totals() == NoContribution
      ensures points == old(points) && samplePointsArray == old(samplePointsArray) && bufferLive == old(bufferLive)
      ensures previousWaterVelocities == old(previousWaterVelocities) && currentSampleIndex == old(currentSampleIndex)
      ensures lastUpdateTime == old(lastUpdateTime) && lastPosition == old(lastPosition) && calls == old(calls)
    {
      totalSubmergedVolume := 0.0;
      totalBuoyancyForce := Zero;
      totalDragForce := Zero;
      centerOfBuoyancy := Zero;
    }

    /** Turns the summed moment into the centre of buoyancy, when something
        is submerged. */
    method CalculateCenterOfBuoyancy()
      modifies this
      ensures centerOfBuoyancy == Centre(old(Totals()))
      ensures totalSubmergedVolume == old(totalSubmergedVolume) && totalBuoyancyForce == old(totalBuoyancyForce)
      ensures totalDragForce == old(totalDragForce)
      ensures points == old(points) && samplePointsArray == old(samplePointsArray) && bufferLive == old(bufferLive)
      ensures previousWaterVelocities == old(previousWaterVelocities) && currentSampleIndex == old(currentSampleIndex)
      ensures lastUpdateTime == old(lastUpdateTime) && lastPosition == old(lastPosition) && calls == old(calls)
    {
      if totalSubmergedVolume > 0.0 {
        centerOfBuoyancy := DivideBy(centerOfBuoyancy, totalSubmergedVolume);
      }
    }

    /** `UpdateBuoyancyPointCPU`: samples the ocean on the CPU at the
        point's world position and runs the buoyancy step on it. */
    method UpdateBuoyancyPointCPU(sc: Scene, index: int)
      requires 0 <= index < |points|
      modifies this
      ensures points == old(points)[index := CpuSampledPoint(settings, sc, old(points)[index])]
      ensures Totals() == AddContribution(old(Totals()), ContributionOf(settings, sc, old(points)[index]))
      ensures samplePointsArray == old(samplePointsArray) && bufferLive == old(bufferLive)
      ensures previousWaterVelocities == old(previousWaterVelocities) && currentSampleIndex == old(currentSampleIndex)
      ensures lastUpdateTime == old(lastUpdateTime) && lastPosition == old(lastPosition) && calls == old(calls)
    {
      ghost var p0 := points[index];
      var point := points[index];
      var worldPosition := sc.toWorld(point.localPosition);
      point := point.(worldPosition := worldPosition, waterHeight := sc.waterHeight(worldPosition),
                      waterNormal := sc.waterNormal(worldPosition));
      var submersion := point.waterHeight - worldPosition.y;
      if submersion > 0.0 {
        CpuShareIsContribution(settings, sc, p0, point);
        point := CalculateBuoyancyForPoint(sc, point, submersion);
        assert point == CpuSampledPoint(settings, sc, p0);
      } else {
        CpuDryAddsNothing(settings, sc, p0);
        AddNothing(Totals());
        point := point.(submergedVolume := 0.0, force := Zero);
        assert point == CpuSampledPoint(settings, sc, p0);
      }
      points := points[index := point];
    }

    /** `UpdateBuoyancyPhysicsCPU`: the fallback step. It resets the totals,
        updates the scheduled points on the CPU, moves the round-robin start
        on and turns the summed moment into the centre of buoyancy. With
        asynchronous sampling and no points the start index update divides
        by zero; that step fails after the reset. */
    method UpdateBuoyancyPhysicsCPU(sc: Scene, now: real, position: Vec3) returns (ok: bool)
      modifies this
      ensures ok == !(settings.useAsyncSampling && |old(points)| == 0)
      ensures lastUpdateTime == now && lastPosition == position
      ensures var sched := StepSchedule(settings, old(currentSampleIndex), |old(points)|);
              InList(old(points), sched) &&
              points == CpuSampled(settings, sc, old(points), sched) &&
              var acc := Accumulate(ContributionFn(settings, sc), old(points), sched);
              totalSubmergedVolume == acc.volume &&
              totalBuoyancyForce == acc.buoyancy &&
              totalDragForce == acc.drag &&
              centerOfBuoyancy == Centre(acc)
      ensures currentSampleIndex ==
                if ok && settings.useAsyncSampling then NextStart(settings, old(currentSampleIndex), |old(points)|)
                else old(currentSampleIndex)
      ensures ok && settings.useAsyncSampling ==> currentSampleIndex < |points|
      ensures samplePointsArray == old(samplePointsArray) && bufferLive == old(bufferLive)
      ensures previousWaterVelocities == old(previousWaterVelocities) && calls == old(calls)
    {
      lastUpdateTime := now;
      lastPosition := position;
      ResetPhysicsData();
      CpuSampleScheduled(sc);
      var count := |points|;
      if settings.useAsyncSampling {
        if count == 0 {
          return false;
        }
        NextStartInRange(settings, currentSampleIndex, count);
        currentSampleIndex := NextStart(settings, currentSampleIndex, count);
      }
      CalculateCenterOfBuoyancy();
      ok := true;
    }

    /** The CPU sampling loop of a step, run on freshly reset totals. */
    method CpuSampleScheduled(sc: Scene)
      requires Totals() == NoContribution
      modifies this
      ensures var sched := StepSchedule(settings, currentSampleIndex, |old(points)|);
              InList(old(points), sched) &&
              points == CpuSampled(settings, sc, old(points), sched) &&
              Totals() == Accumulate(ContributionFn(settings, sc), old(points), sched)
      ensures samplePointsArray == old(samplePointsArray) && bufferLive == old(bufferLive)
      ensures previousWaterVelocities == old(previousWaterVelocities) && currentSampleIndex == old(currentSampleIndex)
      ensures lastUpdateTime == old(lastUpdateTime) && lastPosition == old(lastPosition) && calls == old(calls)
    {
      var count := |points|;
      var n := PointsToUpdate(settings, count);
      ghost var before := points;
      for i := 0 to n
        invariant samplePointsArray == old(samplePointsArray) && bufferLive == old(bufferLive)
        invariant previousWaterVelocities == old(previousWaterVelocities) && currentSampleIndex == old(currentSampleIndex)
        invariant lastUpdateTime == old(lastUpdateTime) && lastPosition == old(lastPosition) && calls == old(calls)
        invariant InList(before, Schedule(settings, currentSampleIndex, count, i))
        invariant points == CpuSampled(settings, sc, before, Schedule(settings, currentSampleIndex, count, i))
        invariant Totals() == Accumulate(ContributionFn(settings, sc), before, Schedule(settings, currentSampleIndex, count, i))
      {
        var index := SampleIndex(settings, currentSampleIndex, count, i);
        ghost var prev := Schedule(settings, currentSampleIndex, count, i);
        ScheduleValid(settings, currentSampleIndex, count, i + 1);
        assert Schedule(settings, currentSampleIndex, count, i + 1) == prev + [index];
        CpuSampleStep(settings, sc, before, prev, index);
        UpdateBuoyancyPointCPU(sc, index);
      }
    }

    /** `ApplyForces`: nothing while nothing is submerged; otherwise the
        total buoyancy at the centre of buoyancy, the total drag, the
        angular drag and the stability torques, for the body in state `body`. */
    method ApplyForces(body: BodyState)
      modifies this
      ensures calls == old(calls) + GpuForceCalls(settings, totalSubmergedVolume, totalBuoyancyForce, totalDragForce,
                                                  centerOfBuoyancy, body)
      ensures Totals() == old(Totals()) && points == old(points)
      ensures samplePointsArray == old(samplePointsArray) && bufferLive == old(bufferLive)
      ensures previousWaterVelocities == old(previousWaterVelocities) && currentSampleIndex == old(currentSampleIndex)
      ensures lastUpdateTime == old(lastUpdateTime) && lastPosition == old(lastPosition)
    {
      if totalSubmergedVolume <= 0.0 {
        return;
      }
      calls := calls + [AddForceAtPosition(totalBuoyancyForce, centerOfBuoyancy)];
      calls := calls + [AddForce(totalDragForce)];
      var angularDrag := Scale(Scale(Neg(body.angularVelocity), settings.angularDragCoefficient), totalSubmergedVolume);
      calls := calls + [AddTorque(angularDrag)];
      ApplyStabilityForces(body);
    }

    /** `ApplyStabilityForces`: the anti-roll torque past 5 degrees of roll,
        then the pitch damping. */
    method ApplyStabilityForces(body: BodyState)
      modifies this
      ensures calls == old(calls) + StabilityCalls(totalSubmergedVolume, body)
      ensures Totals() == old(Totals()) && points == old(points)
      ensures samplePointsArray == old(samplePointsArray) && bufferLive == old(bufferLive)
      ensures previousWaterVelocities == old(previousWaterVelocities) && currentSampleIndex == old(currentSampleIndex)
      ensures lastUpdateTime == old(lastUpdateTime) && lastPosition == old(lastPosition)
    {
      if body.rollAngle > 5.0 {
        var stabilizingTorque := Scale(Scale(Scale(Cross(body.up, Up), body.rollAngle), totalSubmergedVolume), 10.0);
        calls := calls + [AddTorque(stabilizingTorque)];
      }
      var pitchVelocity := Dot(body.angularVelocity, body.right);
      var pitchDamping := Scale(Scale(Scale(Neg(body.right), pitchVelocity), totalSubmergedVolume), 5.0);
      calls := calls + [AddTorque(pitchDamping)];
    }

    /** One fixed step. Without an ocean or a rigid body (`reachable` false),
        or when no step is due, nothing happens. Otherwise the step runs on
        the GPU when it is enabled and its buffer exists, on the CPU
        otherwise, and the forces are applied; a CPU step that fails on an
        empty list applies nothing. */
    method FixedUpdate(sc: Scene, sampler: Sampler, reachable: bool, now: real, position: Vec3,
                       rotationDelta: real, body: BodyState)
      requires Valid()
      modifies this, samplePointsArray, previousWaterVelocities
      ensures Valid()
      ensures bufferLive == old(bufferLive) && samplePointsArray == old(samplePointsArray)
              && previousWaterVelocities == old(previousWaterVelocities)
      ensures !reachable || !ShouldUpdateThisFrame(settings, now, old(lastUpdateTime), position, old(lastPosition), rotationDelta) ==>
                points == old(points) && Totals() == old(Totals()) && calls == old(calls)
                && currentSampleIndex == old(currentSampleIndex)
                && lastUpdateTime == old(lastUpdateTime) && lastPosition == old(lastPosition)
                && previousWaterVelocities[..] == old(previousWaterVelocities[..])
      ensures reachable && ShouldUpdateThisFrame(settings, now, old(lastUpdateTime), position, old(lastPosition), rotationDelta) ==>
                lastUpdateTime == now && lastPosition == position
                && (!(useGPUSampling && old(bufferLive)) && settings.useAsyncSampling && |old(points)| == 0 ==>
                      calls == old(calls))
                && ((useGPUSampling && old(bufferLive)) || !(settings.useAsyncSampling && |old(points)| == 0) ==>
                      calls == old(calls) + GpuForceCalls(settings, totalSubmergedVolume, totalBuoyancyForce,
                                                          totalDragForce, centerOfBuoyancy, body))
      ensures reachable && ShouldUpdateThisFrame(settings, now, old(lastUpdateTime), position, old(lastPosition), rotationDelta)
              && useGPUSampling && old(bufferLive) ==>
                samplePointsArray != null &&
                var sched := RoundRobin(old(currentSampleIndex), |old(points)|, samplePointsArray.Length);
                InList(old(points), sched) &&
                var rs := Results(sc, sampler, old(points), sched);
                points == Processed(settings, sc, old(points), sched, rs) &&
                previousWaterVelocities[..] == StoredVelocities(settings, old(previousWaterVelocities[..]), sched, rs) &&
                var acc := SampleTotals(settings, sc, old(points), sched, rs);
                totalSubmergedVolume == acc.volume && totalBuoyancyForce == acc.buoyancy &&
                totalDragForce == acc.drag && centerOfBuoyancy == Centre(acc) &&
                currentSampleIndex == (old(currentSampleIndex) + samplePointsArray.Length) % |points|
      ensures reachable && ShouldUpdateThisFrame(settings, now, old(lastUpdateTime), position, old(lastPosition), rotationDelta)
              && !(useGPUSampling && old(bufferLive)) ==>
                var sched := StepSchedule(settings, old(currentSampleIndex), |old(points)|);
                InList(old(points), sched) &&
                points == CpuSampled(settings, sc, old(points), sched) &&
                previousWaterVelocities[..] == old(previousWaterVelocities[..]) &&
                var acc := Accumulate(ContributionFn(settings, sc), old(points), sched);
                totalSubmergedVolume == acc.volume && totalBuoyancyForce == acc.buoyancy &&
                totalDragForce == acc.drag && centerOfBuoyancy == Centre(acc) &&
                currentSampleIndex ==
                  if settings.useAsyncSampling && |old(points)| > 0 then NextStart(settings, old(currentSampleIndex), |old(points)|)
                  else old(currentSampleIndex)
    {
      if !reachable {
        return;
      }
      if ShouldUpdateThisFrame(settings, now, lastUpdateTime, position, lastPosition, rotationDelta) {
        if useGPUSampling && bufferLive {
          UpdateBuoyancyPhysicsGPU(sc, sampler, now, position);
        } else {
          var ok := UpdateBuoyancyPhysicsCPU(sc, now, position);
          if !ok {
            return;
          }
        }
        ApplyForces(body);
      }
    }

    /** The share of points currently submerged. */
    method GetSubmergedPercentage() returns (share: real)
      ensures share == SubmergedShare(points)
      ensures 0.0 <= share <= 1.0
    {
      ShareBounds(points);
      if |points| == 0 {
        return 0.0;
      }
      var submergedCount := 0;
      for i := 0 to |points|
        invariant submergedCount == SubmergedCount(points[..i])
      {
        assert points[..i + 1][..i] == points[..i];
        if points[i].submergedVolume > 0.0 {
          submergedCount := submergedCount + 1;
        }
      }
      assert points[..|points|] == points;
      share := submergedCount as real / |points| as real;
    }

    /** Uploads the batch of `n` points starting at `currentSampleIndex`,
        dispatches the shader over it and reads the `n` results back. */
    method SampleBatch(sc: Scene, sampler: Sampler, n: nat) returns (results: seq<GPUSamplePoint>)
      requires samplePointsArray != null && n <= samplePointsArray.Length && |points| > 0
      modifies samplePointsArray
      ensures results == Results(sc, sampler, points, RoundRobin(currentSampleIndex, |points|, n))
    {
      UploadSamples(sc, n);
      var threadGroups := ThreadGroups(n);
      RunSampler(sampler, n, threadGroups);
      results := samplePointsArray[..n];
    }

    /** `OnDestroy`: the compute buffer is released. */
    method OnDestroy()
      modifies this
      ensures !bufferLive
      ensures points == old(points) && samplePointsArray == old(samplePointsArray)
      ensures previousWaterVelocities == old(previousWaterVelocities) && currentSampleIndex == old(currentSampleIndex)
      ensures lastUpdateTime == old(lastUpdateTime) && lastPosition == old(lastPosition)
      ensures Totals() == old(Totals()) && calls == old(calls)
    {
      bufferLive := false;
    }
  }
}
