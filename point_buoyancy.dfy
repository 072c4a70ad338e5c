// Sphere-point buoyancy: a body carries a list of buoyancy points, each a small
// sphere at a local position. A physics step samples the ocean under some of
// them (all, or a round-robin batch), recomputes each sampled point's submerged
// volume and force, sums those into totals, and then applies the totals and the
// per-point forces to the rigid body.

module PointBuoyancy {
  import opened UnityMath
  import HeightSampling

  /** One buoyancy point. Unity serialises these plain classes by value inside
      the component's list, so the list never holds the same point twice and a
      point is modelled as a value the list entry is replaced by. */
  datatype BuoyancyPoint = BuoyancyPoint(
    localPosition: Vec3,
    radius: real,
    submergedVolume: real,
    waterHeight: real,
    waterNormal: Vec3,
    worldPosition: Vec3,
    velocity: Vec3,
    force: Vec3)

  /** A point as an object initialiser creates it: position and radius set,
      everything else at its default. */
  function NewPoint(localPosition: Vec3, radius: real): BuoyancyPoint {
    BuoyancyPoint(localPosition, radius, 0.0, 0.0, Zero, Zero, Zero, Zero)
  }

  /** The component's settings; the sample budget is a count of points. */
  datatype BuoyancySettings = BuoyancySettings(
    waterDensity: real,
    dragCoefficient: real,
    angularDragCoefficient: real,
    waveHeightMultiplier: real,
    enableWaveForces: bool,
    viscosityCoefficient: real,
    maxSamplesPerFrame: nat,
    updateFrequency: real,
    useAsyncSampling: bool)

  const DefaultSettings: BuoyancySettings :=
    BuoyancySettings(1000.0, 0.47, 0.3, 1.0, true, 0.02, 8, 60.0, true)

  /** What the engine supplies during a step: the body's local-to-world
      transform, the water height and normal the ocean reports at a world
      point, and the rigid body's velocity at a world point. */
  datatype Scene = Scene(
    toWorld: Vec3 -> Vec3,
    waterHeight: Vec3 -> real,
    waterNormal: Vec3 -> Vec3,
    pointVelocity: Vec3 -> Vec3)

  /** The scene over a sampled ocean: the height is the sampled
      displacement's y scaled by the wave height multiplier, the normal is the
      sampled (unnormalised) normal. */
  function OceanScene(s: BuoyancySettings, toWorld: Vec3 -> Vec3, ocean: HeightSampling.OceanGenerator,
                      pointVelocity: Vec3 -> Vec3): Scene
    requires HeightSampling.ValidGenerator(ocean)
  {
    Scene(toWorld,
          p => HeightSampling.OceanHeight(Some(ocean), p).y * s.waveHeightMultiplier,
          p => HeightSampling.OceanNormal(Some(ocean), p),
          pointVelocity)
  }

  /** A world point is submerged when it lies strictly below the water. */
  predicate IsPointSubmerged(sc: Scene, p: Vec3) {
    p.y < sc.waterHeight(p)
  }

  // ---------------------------------------------------------------------
  // Submerged volume of one sphere

  /** `(4/3)·π·r³`, multiplied out left to right. */
  function SphereVolume(r: real): real {
    (4.0 / 3.0) * Pi * r * r * r
  }

  lemma MulPos(a: real, b: real)
    requires 0.0 < a && 0.0 < b
    ensures 0.0 < a * b
  {
  }

  lemma MulNonNeg(a: real, b: real)
    requires 0.0 <= a && 0.0 <= b
    ensures 0.0 <= a * b
  {
  }

  /** A sphere of non-negative radius has non-negative volume, positive when
      the radius is positive. */
  lemma SphereVolumeSign(r: real)
    requires 0.0 <= r
    ensures 0.0 <= SphereVolume(r)
    ensures 0.0 < r ==> 0.0 < SphereVolume(r)
  {
    var a := (4.0 / 3.0) * Pi;
    var b := a * r;
    var c := b * r;
    var d := c * r;
    assert SphereVolume(r) == d;
    MulNonNeg(a, r);
    MulNonNeg(b, r);
    MulNonNeg(c, r);
    if 0.0 < r {
      MulPos(a, r);
      MulPos(b, r);
      MulPos(c, r);
    }
  }

  /** `clamp01(submersion / (2r))`. For a zero radius the float quotient is
      +infinity, which clamps to 1. */
  function SubmersionRatio(submersion: real, radius: real): (c: real)
    requires submersion > 0.0
    ensures 0.0 <= c <= 1.0
    ensures radius > 0.0 ==> c > 0.0
    ensures radius > 0.0 && submersion >= radius * 2.0 ==> c == 1.0
  {
    if radius == 0.0 then 1.0
    else
      var q := submersion / (radius * 2.0);
      if radius > 0.0 then
        QuotientSign(submersion, radius * 2.0);
        if submersion >= radius * 2.0 then QuotientAtLeastOne(submersion, radius * 2.0); Clamp01(q)
        else Clamp01(q)
      else Clamp01(q)
  }

  lemma QuotientSign(a: real, d: real)
    requires 0.0 < a && 0.0 < d
    ensures 0.0 < a / d
  {
  }

  lemma QuotientAtLeastOne(a: real, d: real)
    requires 0.0 < d <= a
    ensures 1.0 <= a / d
  {
  }

  lemma QuotientMonotone(a: real, b: real, d: real)
    requires 0.0 < d && a <= b
    ensures a / d <= b / d
  {
    assert b / d - a / d == (b - a) / d;
  }

  /** The submerged volume of a point whose centre is `submersion` below the
      water: the sphere's volume times the submersion ratio, or zero when the
      centre is not below the water. */
  function SubmergedVolume(submersion: real, radius: real): real {
    if submersion > 0.0 then SphereVolume(radius) * SubmersionRatio(submersion, radius) else 0.0
  }

  /** The submerged volume lies between zero and the whole sphere; it is zero
      exactly when the centre is not below the water (for a positive radius),
      and the whole sphere once the centre is a diameter deep. */
  lemma VolumeBounds(submersion: real, radius: real)
    requires 0.0 <= radius
    ensures 0.0 <= SubmergedVolume(submersion, radius) <= SphereVolume(radius)
    ensures submersion <= 0.0 ==> SubmergedVolume(submersion, radius) == 0.0
    ensures 0.0 < radius ==> (0.0 < SubmergedVolume(submersion, radius) <==> 0.0 < submersion)
    ensures 0.0 < radius && radius * 2.0 <= submersion ==> SubmergedVolume(submersion, radius) == SphereVolume(radius)
  {
    SphereVolumeSign(radius);
    if submersion > 0.0 {
      var v := SphereVolume(radius);
      var c := SubmersionRatio(submersion, radius);
      assert SubmergedVolume(submersion, radius) == v * c;
      ScaleByUnit(v, c);
      if 0.0 < radius {
        MulPos(v, c);
      }
    }
  }

  /** A deeper centre never gives a smaller submerged volume. */
  lemma VolumeMonotone(s1: real, s2: real, radius: real)
    requires 0.0 <= radius && s1 <= s2
    ensures SubmergedVolume(s1, radius) <= SubmergedVolume(s2, radius)
  {
    if s1 <= 0.0 {
      VolumeBounds(s2, radius);
    } else {
      RatioMonotone(s1, s2, radius);
      SphereVolumeSign(radius);
      MulMono(SphereVolume(radius), SubmersionRatio(s1, radius), SubmersionRatio(s2, radius));
    }
  }

  lemma RatioMonotone(s1: real, s2: real, radius: real)
    requires 0.0 < s1 <= s2 && 0.0 <= radius
    ensures SubmersionRatio(s1, radius) <= SubmersionRatio(s2, radius)
  {
    if radius > 0.0 {
      var d := radius * 2.0;
      QuotientMonotone(s1, s2, d);
      Clamp01Monotone(s1 / d, s2 / d);
    }
  }

  // ---------------------------------------------------------------------
  // Updating one point

  function WorldOf(sc: Scene, p: BuoyancyPoint): Vec3 {
    sc.toWorld(p.localPosition)
  }

  /** How far the point's centre lies below the sampled water height. */
  function Submersion(s: BuoyancySettings, sc: Scene, p: BuoyancyPoint): real
  {
    sc.waterHeight(WorldOf(sc, p)) - WorldOf(sc, p).y
  }

  /** What one sampled point adds to the step's totals. */
  datatype Contribution = Contribution(volume: real, moment: Vec3, buoyancy: Vec3, drag: Vec3)

  const NoContribution: Contribution := Contribution(0.0, Zero, Zero, Zero)

  function BuoyancyForce(s: BuoyancySettings, normal: Vec3, volume: real): Vec3 {
    Scale(normal, volume * s.waterDensity * Gravity)
  }

  function DragForce(s: BuoyancySettings, velocity: Vec3, volume: real): Vec3 {
    Scale(Scale(Scale(Neg(velocity), s.dragCoefficient), volume), s.waterDensity)
  }

  function ViscosityForce(s: BuoyancySettings, velocity: Vec3, ratio: real): Vec3 {
    Scale(Scale(Neg(velocity), s.viscosityCoefficient), ratio)
  }

  /** The totals' share of one point: nothing unless its centre is below the
      water; drag only when wave forces are enabled. */
  function ContributionOf(s: BuoyancySettings, sc: Scene, p: BuoyancyPoint): Contribution
  {
    var sub := Submersion(s, sc, p);
    if sub > 0.0 then
      var wp := WorldOf(sc, p);
      var vol := SubmergedVolume(sub, p.radius);
      var drag := if s.enableWaveForces then DragForce(s, sc.pointVelocity(wp), vol) else Zero;
      Contribution(vol, Scale(wp, vol), BuoyancyForce(s, sc.waterNormal(wp), vol), drag)
    else NoContribution
  }

  /** The point after `UpdateBuoyancyPoint`: world position, water height and
      normal always refreshed; volume, velocity and force set when submerged,
      volume and force zeroed (velocity kept) otherwise. */
  function UpdatedPoint(s: BuoyancySettings, sc: Scene, p: BuoyancyPoint): (r: BuoyancyPoint)
    ensures r.localPosition == p.localPosition && r.radius == p.radius
    ensures r.worldPosition == sc.toWorld(p.localPosition)
    ensures r.waterHeight == sc.waterHeight(r.worldPosition)
    ensures r.submergedVolume == ContributionOf(s, sc, p).volume
    ensures Submersion(s, sc, p) <= 0.0 ==> r.force == Zero && r.velocity == p.velocity
  {
    var wp := WorldOf(sc, p);
    var h := sc.waterHeight(wp);
    var n := sc.waterNormal(wp);
    var sub := h - wp.y;
    if sub > 0.0 then
      var ratio := SubmersionRatio(sub, p.radius);
      var vol := SubmergedVolume(sub, p.radius);
      var v := sc.pointVelocity(wp);
      var buoy := BuoyancyForce(s, n, vol);
      var force :=
        if s.enableWaveForces then Add(Add(buoy, DragForce(s, v, vol)), ViscosityForce(s, v, ratio))
        else buoy;
      p.(worldPosition := wp, waterHeight := h, waterNormal := n,
         submergedVolume := vol, velocity := v, force := force)
    else
      p.(worldPosition := wp, waterHeight := h, waterNormal := n,
         submergedVolume := 0.0, force := Zero)
  }

  /** Re-sampling a point while nothing moves changes nothing: the update
      reads only the point's position and radius. */
  lemma UpdateIdempotent(s: BuoyancySettings, sc: Scene, p: BuoyancyPoint)
    ensures UpdatedPoint(s, sc, UpdatedPoint(s, sc, p)) == UpdatedPoint(s, sc, p)
    ensures ContributionOf(s, sc, UpdatedPoint(s, sc, p)) == ContributionOf(s, sc, p)
  {
  }

  /** A point of positive radius ends the update with a positive volume
      exactly when its world position is submerged; its force then carries
      the buoyancy term, and drag counts into the totals only with wave
      forces enabled. */
  lemma SubmergedIffPositiveVolume(s: BuoyancySettings, sc: Scene, p: BuoyancyPoint)
    requires p.radius > 0.0
    ensures UpdatedPoint(s, sc, p).submergedVolume > 0.0 <==> IsPointSubmerged(sc, WorldOf(sc, p))
    ensures !s.enableWaveForces ==> ContributionOf(s, sc, p).drag == Zero
    ensures !s.enableWaveForces && IsPointSubmerged(sc, WorldOf(sc, p)) ==>
              UpdatedPoint(s, sc, p).force == ContributionOf(s, sc, p).buoyancy
  {
    VolumeBounds(Submersion(s, sc, p), p.radius);
  }

  // ---------------------------------------------------------------------
  // Which points a step samples

  /** All points, or with asynchronous sampling at most the per-step budget. */
  function PointsToUpdate(s: BuoyancySettings, count: nat): (n: nat)
    ensures n <= count
    ensures s.useAsyncSampling ==> n <= s.maxSamplesPerFrame && (n == count || n == s.maxSamplesPerFrame)
    ensures !s.useAsyncSampling ==> n == count
  {
    if s.useAsyncSampling then MinInt(s.maxSamplesPerFrame, count) else count
  }

  /** The list index of the `i`-th point sampled in a step. */
  function SampleIndex(s: BuoyancySettings, current: nat, count: nat, i: nat): int
    requires count > 0 || !s.useAsyncSampling
  {
    if s.useAsyncSampling then IntRem(current + i, count) else i
  }

  /** The first `n` indices a step samples, in order. */
  function Schedule(s: BuoyancySettings, current: nat, count: nat, n: nat): (r: seq<int>)
    requires n <= PointsToUpdate(s, count)
    ensures |r| == n
  {
    if n == 0 then [] else Schedule(s, current, count, n - 1) + [SampleIndex(s, current, count, n - 1)]
  }

  /** Two round-robin offsets less than a period apart leave different remainders. */
  lemma ModDistinct(x: int, d: int, c: int)
    requires 0 <= x && 0 < d < c
    ensures (x + d) % c != x % c
  {
    var q1, q2 := x / c, (x + d) / c;
    if (x + d) % c == x % c {
      assert d == (q2 - q1) * c;
      if q2 > q1 {
        MulAtLeast(q2 - q1, c);
      } else if q2 < q1 {
        assert (q2 - q1) * c == -((q1 - q2) * c);
        MulAtLeast(q1 - q2, c);
      }
    }
  }

  /** A step's sampled indices are valid list indices and pairwise distinct:
      no point is updated twice in one step. */
  lemma {:induction false} ScheduleValid(s: BuoyancySettings, current: nat, count: nat, n: nat)
    requires n <= PointsToUpdate(s, count)
    ensures forall m :: 0 <= m < n ==> 0 <= Schedule(s, current, count, n)[m] < count
    ensures forall a, b :: 0 <= a < b < n ==> Schedule(s, current, count, n)[a] != Schedule(s, current, count, n)[b]
  {
    if n > 0 {
      ScheduleValid(s, current, count, n - 1);
      var r := Schedule(s, current, count, n);
      var prev := Schedule(s, current, count, n - 1);
      assert r == prev + [SampleIndex(s, current, count, n - 1)];
      forall a | 0 <= a < n - 1
        ensures r[a] != r[n - 1]
      {
        assert r[a] == prev[a];
        ScheduleEntry(s, current, count, n - 1, a);
        if s.useAsyncSampling {
          ModDistinct(current + a, n - 1 - a, count);
        }
      }
    }
  }

  /** Entry `m` of a schedule is the `m`-th sample index. */
  lemma {:induction false} ScheduleEntry(s: BuoyancySettings, current: nat, count: nat, n: nat, m: nat)
    requires n <= PointsToUpdate(s, count) && m < n
    ensures Schedule(s, current, count, n)[m] == SampleIndex(s, current, count, m)
  {
    if m < n - 1 {
      ScheduleEntry(s, current, count, n - 1, m);
    }
  }

  /** Where the next asynchronous step starts. */
  function NextStart(s: BuoyancySettings, current: nat, count: nat): int
    requires count > 0
  {
    IntRem(current + PointsToUpdate(s, count), count)
  }

  /** The next step starts inside the list, right after the last point this
      step sampled; when the whole list fits in the budget it starts where
      this one did. */
  lemma NextStartInRange(s: BuoyancySettings, current: nat, count: nat)
    requires count > 0
    ensures 0 <= NextStart(s, current, count) < count
    ensures s.useAsyncSampling && PointsToUpdate(s, count) > 0 ==>
              NextStart(s, current, count) ==
              (SampleIndex(s, current, count, PointsToUpdate(s, count) - 1) + 1) % count
    ensures PointsToUpdate(s, count) == count ==> NextStart(s, current, count) == current % count
  {
    var n := PointsToUpdate(s, count);
    if n == count {
      ModShift(current, 1, count);
    }
    if n > 0 {
      SuccessorMod(current + n - 1, count);
    }
  }

  /** Stepping one past a remainder and wrapping is the remainder of the successor. */
  lemma SuccessorMod(a: nat, c: nat)
    requires c > 0
    ensures (a % c + 1) % c == (a + 1) % c
  {
    var q, r := a / c, a % c;
    assert a == q * c + r;
    if r + 1 < c {
      ModUnique(a + 1, q, r + 1, c);
      ModUnique(r + 1, 0, r + 1, c);
    } else {
      MulSucc(q, c);
      ModUnique(a + 1, q + 1, 0, c);
      ModUnique(c, 1, 0, c);
    }
  }

  lemma MulSucc(q: int, c: int)
    ensures (q + 1) * c == q * c + c
  {
  }

  // ---------------------------------------------------------------------
  // Totals

  function AddContribution(t: Contribution, c: Contribution): Contribution {
    Contribution(t.volume + c.volume, Add(t.moment, c.moment), Add(t.buoyancy, c.buoyancy), Add(t.drag, c.drag))
  }

  predicate InList(ps: seq<BuoyancyPoint>, sched: seq<int>) {
    forall m :: 0 <= m < |sched| ==> 0 <= sched[m] < |ps|
  }

  /** `ContributionOf` under fixed settings and scene, as a function value. */
  function ContributionFn(s: BuoyancySettings, sc: Scene): BuoyancyPoint -> Contribution {
    p => ContributionOf(s, sc, p)
  }

  /** The totals summed over the scheduled points, in schedule order. */
  function Accumulate(f: BuoyancyPoint -> Contribution, ps: seq<BuoyancyPoint>, sched: seq<int>): Contribution
    requires InList(ps, sched)
  {
    if |sched| == 0 then NoContribution
    else AddContribution(Accumulate(f, ps, sched[..|sched| - 1]), f(ps[sched[|sched| - 1]]))
  }

  /** The indices one step samples. */
  function StepSchedule(s: BuoyancySettings, current: nat, count: nat): seq<int> {
    Schedule(s, current, count, PointsToUpdate(s, count))
  }

  /** The list after updating the scheduled points one after another. */
  function Sampled(s: BuoyancySettings, sc: Scene, ps: seq<BuoyancyPoint>, sched: seq<int>): (r: seq<BuoyancyPoint>)
    requires InList(ps, sched)
    ensures |r| == |ps|
  {
    if |sched| == 0 then ps
    else
      var q := Sampled(s, sc, ps, sched[..|sched| - 1]);
      var k := sched[|sched| - 1];
      q[k := UpdatedPoint(s, sc, q[k])]
  }

  /** After sampling, exactly the scheduled points are updated, however often
      each was scheduled, and every other point is untouched. */
  lemma {:induction false} SampledPointwise(s: BuoyancySettings, sc: Scene, ps: seq<BuoyancyPoint>, sched: seq<int>)
    requires InList(ps, sched)
    ensures forall k :: 0 <= k < |ps| ==>
              Sampled(s, sc, ps, sched)[k] == if k in sched then UpdatedPoint(s, sc, ps[k]) else ps[k]
  {
    if |sched| > 0 {
      var init := sched[..|sched| - 1];
      var last := sched[|sched| - 1];
      assert sched == init + [last];
      SampledPointwise(s, sc, ps, init);
      UpdateIdempotent(s, sc, ps[last]);
    }
  }

  /** Sampling never changes what a point contributes. */
  lemma SampledContribution(s: BuoyancySettings, sc: Scene, ps: seq<BuoyancyPoint>, sched: seq<int>, k: int)
    requires InList(ps, sched) && 0 <= k < |ps|
    ensures ContributionOf(s, sc, Sampled(s, sc, ps, sched)[k]) == ContributionOf(s, sc, ps[k])
  {
    SampledPointwise(s, sc, ps, sched);
    UpdateIdempotent(s, sc, ps[k]);
  }

  /** Scheduling one more point updates it in the list and adds its
      contribution to the totals. */
  lemma SampleStep(s: BuoyancySettings, sc: Scene, ps: seq<BuoyancyPoint>, sched: seq<int>, k: int)
    requires InList(ps, sched + [k]) && 0 <= k < |ps|
    ensures InList(ps, sched)
    ensures var q := Sampled(s, sc, ps, sched);
            Sampled(s, sc, ps, sched + [k]) == q[k := UpdatedPoint(s, sc, q[k])]
    ensures Accumulate(ContributionFn(s, sc), ps, sched + [k]) ==
            AddContribution(Accumulate(ContributionFn(s, sc), ps, sched), ContributionOf(s, sc, ps[k]))
  {
    assert InList(ps, sched) by {
      forall m | 0 <= m < |sched| ensures 0 <= sched[m] < |ps| {
        assert sched[m] == (sched + [k])[m];
      }
    }
    assert (sched + [k])[..|sched|] == sched;
  }

  /** `centerOfBuoyancy /= totalSubmergedVolume`, guarded by a positive total. */
  function Centre(t: Contribution): Vec3 {
    if t.volume > 0.0 then DivideBy(t.moment, t.volume) else t.moment
  }

  /** A vector divided by a non-zero scalar, component by component. */
  function DivideBy(a: Vec3, d: real): Vec3
    requires d != 0.0
  {
    Vec3(a.x / d, a.y / d, a.z / d)
  }

  predicate NonNegativeRadii(ps: seq<BuoyancyPoint>) {
    forall k :: 0 <= k < |ps| ==> 0.0 <= ps[k].radius
  }

  /** Volumes that are never negative sum to a non-negative total, and a
      positive total has a positive term. */
  lemma {:induction false} VolumeSumSign(f: BuoyancyPoint -> Contribution, ps: seq<BuoyancyPoint>, sched: seq<int>)
    requires InList(ps, sched)
    requires forall m :: 0 <= m < |sched| ==> 0.0 <= f(ps[sched[m]]).volume
    ensures 0.0 <= Accumulate(f, ps, sched).volume
    ensures 0.0 < Accumulate(f, ps, sched).volume ==> exists m :: 0 <= m < |sched| && 0.0 < f(ps[sched[m]]).volume
  {
    if |sched| > 0 {
      var init := sched[..|sched| - 1];
      VolumeSumSign(f, ps, init);
      if 0.0 < Accumulate(f, ps, init).volume {
        var m :| 0 <= m < |init| && 0.0 < f(ps[init[m]]).volume;
        assert sched[m] == init[m];
      }
    }
  }

  /** With non-negative radii the step's total volume is never negative, and
      it is positive only if some scheduled point is submerged. */
  lemma TotalVolumeSign(s: BuoyancySettings, sc: Scene, ps: seq<BuoyancyPoint>, sched: seq<int>)
    requires InList(ps, sched) && NonNegativeRadii(ps)
    ensures 0.0 <= Accumulate(ContributionFn(s, sc), ps, sched).volume
    ensures 0.0 < Accumulate(ContributionFn(s, sc), ps, sched).volume ==>
              exists m :: 0 <= m < |sched| && 0.0 < Submersion(s, sc, ps[sched[m]])
  {
    var f := ContributionFn(s, sc);
    forall m | 0 <= m < |sched| ensures 0.0 <= f(ps[sched[m]]).volume {
      var p := ps[sched[m]];
      VolumeBounds(Submersion(s, sc, p), p.radius);
    }
    VolumeSumSign(f, ps, sched);
    if 0.0 < Accumulate(f, ps, sched).volume {
      var m :| 0 <= m < |sched| && 0.0 < f(ps[sched[m]]).volume;
      assert 0.0 < Submersion(s, sc, ps[sched[m]]);
    }
  }

  /** A point's moment is its world position scaled by its volume. */
  lemma ContributionMoment(s: BuoyancySettings, sc: Scene, p: BuoyancyPoint)
    ensures ContributionOf(s, sc, p).moment == Scale(WorldOf(sc, p), ContributionOf(s, sc, p).volume)
  {
  }

  predicate AllAt(sc: Scene, ps: seq<BuoyancyPoint>, sched: seq<int>, w: Vec3)
    requires InList(ps, sched)
  {
    forall m :: 0 <= m < |sched| ==> WorldOf(sc, ps[sched[m]]) == w
  }

  lemma Distribute(a: real, b: real, c: real, total: real)
    requires total == b + c
    ensures a * b + a * c == a * total
  {
  }

  /** The sum of a list of contributions, in order. */
  function Sum(cs: seq<Contribution>): Contribution {
    if |cs| == 0 then NoContribution else AddContribution(Sum(cs[..|cs| - 1]), cs[|cs| - 1])
  }

  /** The scheduled points' contributions, in schedule order. */
  function Contributions(f: BuoyancyPoint -> Contribution, ps: seq<BuoyancyPoint>, sched: seq<int>): (cs: seq<Contribution>)
    requires InList(ps, sched)
    ensures |cs| == |sched|
  {
    seq(|sched|, m requires 0 <= m < |sched| => f(ps[sched[m]]))
  }

  /** Accumulating the totals is summing the scheduled contributions. */
  lemma {:induction false} AccumulateIsSum(f: BuoyancyPoint -> Contribution, ps: seq<BuoyancyPoint>, sched: seq<int>)
    requires InList(ps, sched)
    ensures Accumulate(f, ps, sched) == Sum(Contributions(f, ps, sched))
  {
    if |sched| > 0 {
      var init := sched[..|sched| - 1];
      AccumulateIsSum(f, ps, init);
      assert Contributions(f, ps, sched)[..|sched| - 1] == Contributions(f, ps, init);
    }
  }

  /** Contributions whose moments all sit at `w` sum to a moment at `w`. */
  lemma {:induction false} MomentSum(cs: seq<Contribution>, w: Vec3)
    requires forall m :: 0 <= m < |cs| ==> cs[m].moment == Scale(w, cs[m].volume)
    ensures Sum(cs).moment == Scale(w, Sum(cs).volume)
  {
    if |cs| > 0 {
      var init := cs[..|cs| - 1];
      MomentSum(init, w);
      var t := Sum(init);
      var c := cs[|cs| - 1];
      var all := Sum(cs);
      assert all == AddContribution(t, c);
      Distribute(w.x, t.volume, c.volume, all.volume);
      Distribute(w.y, t.volume, c.volume, all.volume);
      Distribute(w.z, t.volume, c.volume, all.volume);
    }
  }

  /** When all scheduled points sit at one world position, the summed moment
      is that position scaled by the summed volume. */
  lemma MomentAtCommonPosition(s: BuoyancySettings, sc: Scene, ps: seq<BuoyancyPoint>, sched: seq<int>, w: Vec3)
    requires InList(ps, sched) && AllAt(sc, ps, sched, w)
    ensures Accumulate(ContributionFn(s, sc), ps, sched).moment ==
            Scale(w, Accumulate(ContributionFn(s, sc), ps, sched).volume)
  {
    var f := ContributionFn(s, sc);
    var cs := Contributions(f, ps, sched);
    forall m | 0 <= m < |cs| ensures cs[m].moment == Scale(w, cs[m].volume) {
      ContributionMoment(s, sc, ps[sched[m]]);
    }
    MomentSum(cs, w);
    AccumulateIsSum(f, ps, sched);
  }

  lemma ScaleBack(a: real, v: real, m: real)
    requires v > 0.0 && m == a * v
    ensures m / v == a
  {
  }

  /** The centre of buoyancy is a volume-weighted mean: if every scheduled
      point is at the same world position and some volume is submerged, the
      centre is that position. */
  lemma CentreAtCommonPosition(s: BuoyancySettings, sc: Scene, ps: seq<BuoyancyPoint>, sched: seq<int>, w: Vec3)
    requires InList(ps, sched) && AllAt(sc, ps, sched, w)
    requires Accumulate(ContributionFn(s, sc), ps, sched).volume > 0.0
    ensures Centre(Accumulate(ContributionFn(s, sc), ps, sched)) == w
  {
    MomentAtCommonPosition(s, sc, ps, sched, w);
    CentreOfCommonMoment(Accumulate(ContributionFn(s, sc), ps, sched), w);
  }

  lemma CentreOfCommonMoment(t: Contribution, w: Vec3)
    requires t.volume > 0.0 && t.moment == Scale(w, t.volume)
    ensures Centre(t) == w
  {
    ScaleBack(w.x, t.volume, t.moment.x);
    ScaleBack(w.y, t.volume, t.moment.y);
    ScaleBack(w.z, t.volume, t.moment.z);
  }

  // ---------------------------------------------------------------------
  // Forces applied to the body

  /** One extra force at each submerged point, a tenth of its own force. */
  function PointCalls(ps: seq<BuoyancyPoint>): seq<RigidBodyCall> {
    if |ps| == 0 then []
    else
      var p := ps[|ps| - 1];
      PointCalls(ps[..|ps| - 1]) +
      (if p.submergedVolume > 0.0 then [PointCall(p)] else [])
  }

  /** The number of points whose submerged volume is positive. */
  function SubmergedCount(ps: seq<BuoyancyPoint>): (n: nat)
    ensures n <= |ps|
  {
    if |ps| == 0 then 0
    else SubmergedCount(ps[..|ps| - 1]) + (if ps[|ps| - 1].submergedVolume > 0.0 then 1 else 0)
  }

  /** `c` is the tenth-force call of some submerged point of `ps`. */
  predicate ForceAtSubmergedPoint(ps: seq<BuoyancyPoint>, c: RigidBodyCall) {
    exists k :: 0 <= k < |ps| && ps[k].submergedVolume > 0.0 && c == PointCall(ps[k])
  }

  function PointCall(p: BuoyancyPoint): RigidBodyCall {
    AddForceAtPosition(Scale(p.force, 0.1), p.worldPosition)
  }

  /** Every per-point call is a force at a submerged point, and there is one
      per submerged point. */
  lemma {:induction false} PointCallsPerSubmergedPoint(ps: seq<BuoyancyPoint>)
    ensures |PointCalls(ps)| == SubmergedCount(ps)
    ensures forall c :: c in PointCalls(ps) ==> ForceAtSubmergedPoint(ps, c)
  {
    if |ps| > 0 {
      var init := ps[..|ps| - 1];
      PointCallsPerSubmergedPoint(init);
      forall c | c in PointCalls(ps)
        ensures ForceAtSubmergedPoint(ps, c)
      {
        if c in PointCalls(init) {
          var k :| 0 <= k < |init| && init[k].submergedVolume > 0.0 && c == PointCall(init[k]);
          assert ps[k] == init[k];
        } else {
          assert ps[|ps| - 1].submergedVolume > 0.0;
        }
      }
    }
  }

  /** The calls `ApplyForces` makes: none while nothing is submerged; otherwise
      the total buoyancy at the centre, the total drag, the angular drag, and
      then the per-point forces. */
  function ForceCalls(s: BuoyancySettings, totalVolume: real, totalBuoyancy: Vec3, totalDrag: Vec3,
                      centre: Vec3, angularVelocity: Vec3, ps: seq<BuoyancyPoint>): seq<RigidBodyCall>
  {
    if totalVolume <= 0.0 then []
    else
      [AddForceAtPosition(totalBuoyancy, centre),
       AddForce(totalDrag),
       AddTorque(Scale(Scale(Neg(angularVelocity), s.angularDragCoefficient), totalVolume))]
      + PointCalls(ps)
  }

  /** The share of points that are submerged, zero for an empty list. */
  function SubmergedShare(ps: seq<BuoyancyPoint>): real {
    if |ps| == 0 then 0.0 else SubmergedCount(ps) as real / |ps| as real
  }

  lemma Fraction(c: real, n: real)
    requires 0.0 <= c <= n && 0.0 < n
    ensures 0.0 <= c / n <= 1.0
    ensures c == 0.0 ==> c / n == 0.0
    ensures c == n ==> c / n == 1.0
  {
    QuotientMonotone(0.0, c, n);
    QuotientMonotone(c, n, n);
  }

  /** The share is a fraction: in [0,1], 0 when no point is submerged and 1
      when all are. */
  lemma ShareBounds(ps: seq<BuoyancyPoint>)
    ensures 0.0 <= SubmergedShare(ps) <= 1.0
    ensures SubmergedCount(ps) == 0 ==> SubmergedShare(ps) == 0.0
    ensures |ps| > 0 && SubmergedCount(ps) == |ps| ==> SubmergedShare(ps) == 1.0
  {
    if |ps| > 0 {
      var c := SubmergedCount(ps) as real;
      var n := |ps| as real;
      Fraction(c, n);
      assert SubmergedShare(ps) == c / n;
    }
  }

  // ---------------------------------------------------------------------
  // Default points

  /** `max(2, round(extent / 2))` points along one axis. */
  function PointsAlong(extent: real): (n: int)
    ensures n >= 2
    ensures n == 2 || n == RoundToInt(extent / 2.0)
  {
    MaxInt(2, RoundToInt(extent / 2.0))
  }

  /** The grid coordinate of the `i`-th of `count` points across `extent`. */
  function GridCoordinate(i: int, count: int, extent: real): real
    requires count >= 2
  {
    (i as real / (count - 1) as real - 0.5) * extent
  }

  /** Grid coordinates stay within half the extent on either side of the centre. */
  lemma GridCoordinateInside(i: int, count: int, extent: real)
    requires count >= 2 && 0 <= i < count
    ensures -Abs(extent) / 2.0 <= GridCoordinate(i, count, extent) <= Abs(extent) / 2.0
  {
    UnitFraction(i, count - 1);
    HalfSpan(i as real / (count - 1) as real - 0.5, extent);
  }

  lemma UnitFraction(i: int, n: int)
    requires 0 <= i <= n && n >= 1
    ensures 0.0 <= i as real / n as real <= 1.0
  {
    QuotientMonotone(0.0, i as real, n as real);
    QuotientMonotone(i as real, n as real, n as real);
  }

  /** A factor within half a unit of zero scales a value to at most half its size. */
  lemma HalfSpan(u: real, x: real)
    requires -0.5 <= u <= 0.5
    ensures -Abs(x) / 2.0 <= u * x <= Abs(x) / 2.0
  {
    if x >= 0.0 {
      HalfSpanOfNonNegative(u, x);
    } else {
      HalfSpanOfNonNegative(u, -x);
      NegateRight(u, x);
    }
  }

  lemma HalfSpanOfNonNegative(u: real, k: real)
    requires -0.5 <= u <= 0.5 && 0.0 <= k
    ensures -k / 2.0 <= u * k <= k / 2.0
  {
    MulMonoRight(k, u, 0.5);
    MulMonoRight(k, -0.5, u);
  }

  lemma MulMonoRight(k: real, a: real, b: real)
    requires 0.0 <= k && a <= b
    ensures a * k <= b * k
  {
    MulMono(k, a, b);
  }

  lemma NegateRight(u: real, x: real)
    ensures u * (-x) == -(u * x)
  {
  }

  function DefaultRadius(localBounds: Vec3): real {
    var nx := PointsAlong(localBounds.x);
    var nz := PointsAlong(localBounds.z);
    Min(localBounds.x, localBounds.z) / (nx + nz) as real * 0.5
  }

  /** The default point at grid cell (x, z). */
  function DefaultPoint(localBounds: Vec3, x: int, z: int): BuoyancyPoint {
    var nx := PointsAlong(localBounds.x);
    var nz := PointsAlong(localBounds.z);
    NewPoint(Vec3(GridCoordinate(x, nx, localBounds.x),
                  -localBounds.y * 0.3,
                  GridCoordinate(z, nz, localBounds.z)),
             DefaultRadius(localBounds))
  }

  /** Cells (x, 0) .. (x, z-1). */
  function GridColumn(localBounds: Vec3, x: int, z: nat): (r: seq<BuoyancyPoint>)
    ensures |r| == z
  {
    if z == 0 then [] else GridColumn(localBounds, x, z - 1) + [DefaultPoint(localBounds, x, z - 1)]
  }

  /** Columns 0 .. x-1, each complete. */
  function GridRows(localBounds: Vec3, x: nat): seq<BuoyancyPoint> {
    if x == 0 then []
    else GridRows(localBounds, x - 1) + GridColumn(localBounds, x - 1, PointsAlong(localBounds.z))
  }

  /** The points generated for a collider whose size in local space is `localBounds`. */
  function DefaultGrid(localBounds: Vec3): seq<BuoyancyPoint> {
    GridRows(localBounds, PointsAlong(localBounds.x))
  }

  /** A default point lies inside the collider's box horizontally, 0.3 of the
      height below the centre, with the shared radius. */
  predicate WellPlaced(localBounds: Vec3, p: BuoyancyPoint) {
    -Abs(localBounds.x) / 2.0 <= p.localPosition.x <= Abs(localBounds.x) / 2.0 &&
    -Abs(localBounds.z) / 2.0 <= p.localPosition.z <= Abs(localBounds.z) / 2.0 &&
    p.localPosition.y == -localBounds.y * 0.3 &&
    p.radius == DefaultRadius(localBounds) &&
    p.submergedVolume == 0.0
  }

  lemma {:induction false} GridColumnPlaced(localBounds: Vec3, x: int, z: nat)
    requires 0 <= x < PointsAlong(localBounds.x) && z <= PointsAlong(localBounds.z)
    ensures forall n :: 0 <= n < z ==> WellPlaced(localBounds, GridColumn(localBounds, x, z)[n])
  {
    if z > 0 {
      GridColumnPlaced(localBounds, x, z - 1);
      GridCoordinateInside(x, PointsAlong(localBounds.x), localBounds.x);
      GridCoordinateInside(z - 1, PointsAlong(localBounds.z), localBounds.z);
    }
  }

  /** `x` complete columns hold `x · pointsZ` points, all well placed. */
  lemma {:induction false} GridRowsPlaced(localBounds: Vec3, x: nat)
    requires x <= PointsAlong(localBounds.x)
    ensures |GridRows(localBounds, x)| == x * PointsAlong(localBounds.z)
    ensures forall n :: 0 <= n < |GridRows(localBounds, x)| ==> WellPlaced(localBounds, GridRows(localBounds, x)[n])
  {
    if x > 0 {
      var nz := PointsAlong(localBounds.z);
      GridRowsPlaced(localBounds, x - 1);
      GridColumnPlaced(localBounds, x - 1, nz);
      var a := GridRows(localBounds, x - 1);
      var b := GridColumn(localBounds, x - 1, nz);
      assert GridRows(localBounds, x) == a + b;
      assert x * nz == (x - 1) * nz + nz;
      forall n | 0 <= n < |a + b| ensures WellPlaced(localBounds, (a + b)[n]) {
        if n < |a| { assert (a + b)[n] == a[n]; } else { assert (a + b)[n] == b[n - |a|]; }
      }
    }
  }

  /** The default grid has `pointsX · pointsZ >= 4` points, all well placed. */
  lemma DefaultGridShape(localBounds: Vec3)
    ensures |DefaultGrid(localBounds)| == PointsAlong(localBounds.x) * PointsAlong(localBounds.z)
    ensures |DefaultGrid(localBounds)| >= 4
    ensures forall n :: 0 <= n < |DefaultGrid(localBounds)| ==> WellPlaced(localBounds, DefaultGrid(localBounds)[n])
  {
    var nx := PointsAlong(localBounds.x);
    var nz := PointsAlong(localBounds.z);
    GridRowsPlaced(localBounds, nx);
    MulAtLeast(nx - 1, nz);
    assert nx * nz == (nx - 1) * nz + nz;
  }

  // ---------------------------------------------------------------------
  // When a step runs

  /** A physics step runs once `1 / updateFrequency` seconds have passed since
      the last one, or earlier when the body has moved more than 0.1 or turned
      more than 5 degrees since then. `rotationDelta` is the angle between the
      current and the recorded rotation. With a zero frequency the float
      period is +infinity and only movement triggers a step. */
  function ShouldUpdateThisFrame(s: BuoyancySettings, now: real, lastUpdateTime: real,
                                 position: Vec3, lastPosition: Vec3, rotationDelta: real): bool
  {
    var timeSinceLastUpdate := now - lastUpdateTime;
    if s.updateFrequency != 0.0 && timeSinceLastUpdate >= 1.0 / s.updateFrequency then true
    else SqrMagnitude(Sub(position, lastPosition)) > 0.1 * 0.1 || rotationDelta > 5.0
  }

  /** A due step always runs; a body at rest runs no step before it is due. */
  lemma ShouldUpdateWhenDueOrMoving(s: BuoyancySettings, now: real, lastUpdateTime: real,
                                    position: Vec3, lastPosition: Vec3, rotationDelta: real)
    requires s.updateFrequency > 0.0
    ensures now - lastUpdateTime >= 1.0 / s.updateFrequency ==>
              ShouldUpdateThisFrame(s, now, lastUpdateTime, position, lastPosition, rotationDelta)
    ensures ShouldUpdateThisFrame(s, now, lastUpdateTime, position, lastPosition, rotationDelta) <==>
              (now - lastUpdateTime >= 1.0 / s.updateFrequency
               || SqrMagnitude(Sub(position, lastPosition)) > 0.01 || rotationDelta > 5.0)
    ensures position == lastPosition && rotationDelta <= 5.0 && now - lastUpdateTime < 1.0 / s.updateFrequency ==>
              !ShouldUpdateThisFrame(s, now, lastUpdateTime, position, lastPosition, rotationDelta)
  {
    assert Sub(position, position) == Zero;
  }

  // ---------------------------------------------------------------------
  // The component

  class OceanBuoyancy {
    const settings: BuoyancySettings
    var points: seq<BuoyancyPoint>
    var currentSampleIndex: nat
    var totalSubmergedVolume: real
    var totalBuoyancyForce: Vec3
    var totalDragForce: Vec3
    var centerOfBuoyancy: Vec3
    /** When the last step ran and where the body was then. */
    var lastUpdateTime: real
    var lastPosition: Vec3
    /** The calls made on the rigid body so far, in order. */
    var calls: seq<RigidBodyCall>

    constructor(settings: BuoyancySettings, points: seq<BuoyancyPoint>)
      ensures this.settings == settings && this.points == points
      ensures currentSampleIndex == 0 && totalSubmergedVolume == 0.0
      ensures totalBuoyancyForce == Zero && totalDragForce == Zero && centerOfBuoyancy == Zero
      ensures lastUpdateTime == 0.0 && lastPosition == Zero
      ensures calls == []
    {
      lastUpdateTime := 0.0;
      lastPosition := Zero;
      this.settings := settings;
      this.points := points;
      currentSampleIndex := 0;
      totalSubmergedVolume := 0.0;
      totalBuoyancyForce := Zero;
      totalDragForce := Zero;
      centerOfBuoyancy := Zero;
      calls := [];
    }

    /** The totals as one value. */
    function Totals(): Contribution
      reads this
    {
      Contribution(totalSubmergedVolume, centerOfBuoyancy, totalBuoyancyForce, totalDragForce)
    }

    /** Appends the default grid when the body has a collider, whose size in
        local space is `localBounds`; without a collider nothing changes. */
    method GenerateDefaultBuoyancyPoints(localBounds: Option<Vec3>)
      modifies this
      ensures points == old(points) + (if localBounds.Some? then DefaultGrid(localBounds.value) else [])
      ensures currentSampleIndex == old(currentSampleIndex) && Totals() == old(Totals()) && calls == old(calls)
    {
      if localBounds.Some? {
        var lb := localBounds.value;
        var nx := PointsAlong(lb.x);
        var nz := PointsAlong(lb.z);
        for x := 0 to nx
          invariant points == old(points) + GridRows(lb, x)
          invariant currentSampleIndex == old(currentSampleIndex) && Totals() == old(Totals()) && calls == old(calls)
        {
          for z := 0 to nz
            invariant points == old(points) + GridRows(lb, x) + GridColumn(lb, x, z)
            invariant currentSampleIndex == old(currentSampleIndex) && Totals() == old(Totals()) && calls == old(calls)
          {
            points := points + [DefaultPoint(lb, x, z)];
          }
        }
      }
    }

    /** Samples one point and adds its share to the totals. */
    method UpdateBuoyancyPoint(sc: Scene, index: int)
      requires 0 <= index < |points|
      modifies this
      ensures points == old(points)[index := UpdatedPoint(settings, sc, old(points)[index])]
      ensures Totals() == AddContribution(old(Totals()), ContributionOf(settings, sc, old(points)[index]))
      ensures currentSampleIndex == old(currentSampleIndex) && calls == old(calls)
      ensures lastUpdateTime == old(lastUpdateTime) && lastPosition == old(lastPosition)
    {
      var p := points[index];
      var c := ContributionOf(settings, sc, p);
      totalSubmergedVolume := totalSubmergedVolume + c.volume;
      centerOfBuoyancy := Add(centerOfBuoyancy, c.moment);
      totalBuoyancyForce := Add(totalBuoyancyForce, c.buoyancy);
      totalDragForce := Add(totalDragForce, c.drag);
      points := points[index := UpdatedPoint(settings, sc, p)];
    }

    /** One physics step: reset the totals, sample the scheduled points, move
        the round-robin start on, and turn the summed moment into the centre
        of buoyancy. With asynchronous sampling and no points the start index
        update divides by zero; that step fails after the reset. */
    method UpdateBuoyancyPhysics(sc: Scene, now: real, position: Vec3) returns (ok: bool)
      modifies this
      ensures ok == !(settings.useAsyncSampling && |old(points)| == 0)
      ensures lastUpdateTime == now && lastPosition == position
      ensures var sched := StepSchedule(settings, old(currentSampleIndex), |old(points)|);
              InList(old(points), sched) &&
              points == Sampled(settings, sc, old(points), sched) &&
              var acc := Accumulate(ContributionFn(settings, sc), old(points), sched);
              totalSubmergedVolume == acc.volume &&
              totalBuoyancyForce == acc.buoyancy &&
              totalDragForce == acc.drag &&
              centerOfBuoyancy == Centre(acc)
      ensures currentSampleIndex ==
                if ok && settings.useAsyncSampling then NextStart(settings, old(currentSampleIndex), |old(points)|)
                else old(currentSampleIndex)
      ensures ok && settings.useAsyncSampling ==> currentSampleIndex < |points|
      ensures calls == old(calls)
    {
      lastUpdateTime := now;
      lastPosition := position;
      totalSubmergedVolume := 0.0;
      totalBuoyancyForce := Zero;
      totalDragForce := Zero;
      centerOfBuoyancy := Zero;
      SampleScheduled(sc);
      var count := |points|;
      if settings.useAsyncSampling {
        if count == 0 {
          return false;
        }
        NextStartInRange(settings, currentSampleIndex, count);
        currentSampleIndex := NextStart(settings, currentSampleIndex, count);
      }
      if totalSubmergedVolume > 0.0 {
        centerOfBuoyancy := DivideBy(centerOfBuoyancy, totalSubmergedVolume);
      }
      ok := true;
    }

    /** The sampling loop of a step, run on freshly reset totals. */
    method SampleScheduled(sc: Scene)
      requires Totals() == NoContribution
      modifies this
      ensures var sched := StepSchedule(settings, currentSampleIndex, |old(points)|);
              InList(old(points), sched) &&
              points == Sampled(settings, sc, old(points), sched) &&
              Totals() == Accumulate(ContributionFn(settings, sc), old(points), sched)
      ensures currentSampleIndex == old(currentSampleIndex) && calls == old(calls)
      ensures lastUpdateTime == old(lastUpdateTime) && lastPosition == old(lastPosition)
    {
      var count := |points|;
      var n := PointsToUpdate(settings, count);
      ghost var before := points;
      for i := 0 to n
        invariant currentSampleIndex == old(currentSampleIndex) && calls == old(calls)
        invariant lastUpdateTime == old(lastUpdateTime) && lastPosition == old(lastPosition)
        invariant InList(before, Schedule(settings, currentSampleIndex, count, i))
        invariant points == Sampled(settings, sc, before, Schedule(settings, currentSampleIndex, count, i))
        invariant Totals() == Accumulate(ContributionFn(settings, sc), before, Schedule(settings, currentSampleIndex, count, i))
      {
        var index := SampleIndex(settings, currentSampleIndex, count, i);
        ghost var prev := Schedule(settings, currentSampleIndex, count, i);
        ghost var sched := Schedule(settings, currentSampleIndex, count, i + 1);
        ScheduleValid(settings, currentSampleIndex, count, i + 1);
        assert sched == prev + [index];
        SampledContribution(settings, sc, before, prev, index);
        SampleStep(settings, sc, before, prev, index);
        UpdateBuoyancyPoint(sc, index);
      }
    }

    /** Applies the step's totals and per-point forces to the rigid body,
        given its angular velocity; does nothing while nothing is submerged. */
    method ApplyForces(angularVelocity: Vec3)
      modifies this
      ensures calls == old(calls) + ForceCalls(settings, totalSubmergedVolume, totalBuoyancyForce, totalDragForce,
                                               centerOfBuoyancy, angularVelocity, points)
      ensures points == old(points) && Totals() == old(Totals()) && currentSampleIndex == old(currentSampleIndex)
      ensures lastUpdateTime == old(lastUpdateTime) && lastPosition == old(lastPosition)
    {
      if totalSubmergedVolume <= 0.0 {
        return;
      }
      calls := calls + [AddForceAtPosition(totalBuoyancyForce, centerOfBuoyancy)];
      calls := calls + [AddForce(totalDragForce)];
      var angularDrag := Scale(Scale(Neg(angularVelocity), settings.angularDragCoefficient), totalSubmergedVolume);
      calls := calls + [AddTorque(angularDrag)];
      ghost var head := calls;
      for i := 0 to |points|
        invariant points == old(points) && Totals() == old(Totals()) && currentSampleIndex == old(currentSampleIndex)
        invariant lastUpdateTime == old(lastUpdateTime) && lastPosition == old(lastPosition)
        invariant calls == head + PointCalls(points[..i])
      {
        assert points[..i + 1][..i] == points[..i];
        var p := points[i];
        if p.submergedVolume > 0.0 {
          calls := calls + [PointCall(p)];
        }
      }
      assert points[..|points|] == points;
    }

    /** `Start`: a body without points gets the default grid (when it has a
        collider of local size `localBounds`), and the time and position are
        recorded as those of the last step. */
    method Start(localBounds: Option<Vec3>, now: real, position: Vec3)
      modifies this
      ensures points == old(points) + (if |old(points)| == 0 && localBounds.Some? then DefaultGrid(localBounds.value) else [])
      ensures lastUpdateTime == now && lastPosition == position
      ensures currentSampleIndex == old(currentSampleIndex) && Totals() == old(Totals()) && calls == old(calls)
    {
      if |points| == 0 {
        GenerateDefaultBuoyancyPoints(localBounds);
      }
      lastUpdateTime := now;
      lastPosition := position;
    }

    /** One fixed step. Without an ocean or a rigid body (`reachable` false)
        nothing happens; otherwise, when a step is due, the points are
        sampled and the forces applied. A step that fails on an empty list
        applies nothing. */
    method FixedUpdate(sc: Scene, reachable: bool, now: real, position: Vec3, rotationDelta: real, angularVelocity: Vec3)
      modifies this
      ensures !reachable || !ShouldUpdateThisFrame(settings, now, old(lastUpdateTime), position, old(lastPosition), rotationDelta) ==>
                points == old(points) && Totals() == old(Totals()) && calls == old(calls)
                && currentSampleIndex == old(currentSampleIndex)
                && lastUpdateTime == old(lastUpdateTime) && lastPosition == old(lastPosition)
      ensures reachable && ShouldUpdateThisFrame(settings, now, old(lastUpdateTime), position, old(lastPosition), rotationDelta) ==>
                lastUpdateTime == now && lastPosition == position
                && (settings.useAsyncSampling && |old(points)| == 0 ==> calls == old(calls))
                && (!(settings.useAsyncSampling && |old(points)| == 0) ==>
                      calls == old(calls) + ForceCalls(settings, totalSubmergedVolume, totalBuoyancyForce, totalDragForce,
                                                       centerOfBuoyancy, angularVelocity, points))
      ensures reachable && ShouldUpdateThisFrame(settings, now, old(lastUpdateTime), position, old(lastPosition), rotationDelta) ==>
                var sched := StepSchedule(settings, old(currentSampleIndex), |old(points)|);
                InList(old(points), sched) &&
                points == Sampled(settings, sc, old(points), sched) &&
                var acc := Accumulate(ContributionFn(settings, sc), old(points), sched);
                totalSubmergedVolume == acc.volume &&
                totalBuoyancyForce == acc.buoyancy &&
                totalDragForce == acc.drag &&
                centerOfBuoyancy == Centre(acc)
      ensures reachable && ShouldUpdateThisFrame(settings, now, old(lastUpdateTime), position, old(lastPosition), rotationDelta) ==>
                currentSampleIndex ==
                  if settings.useAsyncSampling && |old(points)| > 0 then NextStart(settings, old(currentSampleIndex), |old(points)|)
                  else old(currentSampleIndex)
    {
      if !reachable {
        return;
      }
      if ShouldUpdateThisFrame(settings, now, lastUpdateTime, position, lastPosition, rotationDelta) {
        var ok := UpdateBuoyancyPhysics(sc, now, position);
        if ok {
          ApplyForces(angularVelocity);
        }
      }
    }

    /** The share of points currently submerged. */
    method GetSubmergedPercentage() returns (share: real)
      ensures share == SubmergedShare(points)
      ensures 0.0 <= share <= 1.0
    {
      ShareBounds(points);
      if |points| == 0 {
        return 0.0;
      }
      var submergedCount := 0;
      for i := 0 to |points|
        invariant submergedCount == SubmergedCount(points[..i])
      {
        assert points[..i + 1][..i] == points[..i];
        if points[i].submergedVolume > 0.0 {
          submergedCount := submergedCount + 1;
        }
      }
      assert points[..|points|] == points;
      share := submergedCount as real / |points| as real;
    }
  }
}
