// Simple buoyancy: a body either floats on one sample under its centre, or on
// a handful of local points each sampled separately. Water is re-sampled on
// every second physics step; each step then turns the submerged share into an
// upward force (capped), and applies it with damping and, in multi-point mode,
// a torque that rights the body.

module SimpleFloat {
  import opened UnityMath
  import HeightSampling

  /** The component's inspector settings. */
  datatype FloatSettings = FloatSettings(
    waterDensity: real,
    objectVolume: real,
    submergedVolumeMultiplier: real,
    maxBuoyancyForce: real,
    linearDrag: real,
    angularDrag: real,
    useMultiplePoints: bool,
    buoyancyPoints: seq<Vec3>)

  /** Four corners of a 2 × 2 square and its centre, in local space. */
  const DefaultPoints: seq<Vec3> := [
    Vec3(-1.0, 0.0, 1.0), Vec3(1.0, 0.0, 1.0), Vec3(-1.0, 0.0, -1.0), Vec3(1.0, 0.0, -1.0), Vec3(0.0, 0.0, 0.0)
  ]

  const DefaultSettings: FloatSettings :=
    FloatSettings(1000.0, 10.0, 5.0, 500000.0, 2.0, 5.0, true, DefaultPoints)

  /** The settings the model needs: a positive object volume (the overall
      fraction divides by it) and non-negative physical constants. */
  predicate ValidSettings(s: FloatSettings) {
    s.objectVolume > 0.0 && s.waterDensity >= 0.0 && s.submergedVolumeMultiplier >= 0.0 && s.maxBuoyancyForce >= 0.0
  }

  lemma DefaultSettingsValid()
    ensures ValidSettings(DefaultSettings) && |DefaultSettings.buoyancyPoints| == 5
  {
  }

  /** What the engine supplies during a step: the body's position and up
      axis, its local-to-world transform, the ocean's height and normal at a
      world point, the body's velocities, and the heights of its collider and
      renderer bounds when it has them. */
  datatype World = World(
    position: Vec3,
    up: Vec3,
    toWorld: Vec3 -> Vec3,
    waterHeight: Vec3 -> real,
    waterNormal: Vec3 -> Vec3,
    linearVelocity: Vec3,
    angularVelocity: Vec3,
    colliderHeight: Option<real>,
    rendererHeight: Option<real>)

  /** The world over a sampled ocean: the water height is the y of the sampled
      displacement, the normal the sampled (unnormalised) normal. */
  function OceanWorld(position: Vec3, up: Vec3, toWorld: Vec3 -> Vec3, ocean: HeightSampling.OceanGenerator,
                      linearVelocity: Vec3, angularVelocity: Vec3,
                      colliderHeight: Option<real>, rendererHeight: Option<real>): World
    requires HeightSampling.ValidGenerator(ocean)
  {
    World(position, up, toWorld,
          p => HeightSampling.OceanHeight(Some(ocean), p).y,
          p => HeightSampling.OceanNormal(Some(ocean), p),
          linearVelocity, angularVelocity, colliderHeight, rendererHeight)
  }

  /** The object's height: the collider's, else the renderer's, else 2. */
  function ObjectHeight(w: World): (h: real)
    ensures w.colliderHeight.None? && w.rendererHeight.None? ==> h == 2.0
    ensures w.colliderHeight.Some? ==> h == w.colliderHeight.value
  {
    if w.colliderHeight.Some? then w.colliderHeight.value
    else if w.rendererHeight.Some? then w.rendererHeight.value
    else 2.0
  }

  // ---------------------------------------------------------------------------
  // Submerged fractions

  /** The share of a body of height `height` centred at `y` that lies below
      the water: all of it once its top is under, none while its bottom is
      above, and the covered share of the height in between. */
  function SinglePointFraction(y: real, height: real, water: real): (p: real)
    requires height > 0.0
    ensures 0.0 <= p <= 1.0
  {
    var bottom := y - height * 0.5;
    var top := y + height * 0.5;
    if top < water then 1.0
    else if bottom > water then 0.0
    else Clamp01((water - bottom) / height)
  }

  /** Between bottom and top the fraction is exactly the covered share of the
      height; it is 1 once the top is under water and 0 while the bottom is above. */
  lemma SinglePointFractionShare(y: real, height: real, water: real)
    requires height > 0.0
    ensures y + height * 0.5 < water ==> SinglePointFraction(y, height, water) == 1.0
    ensures water < y - height * 0.5 ==> SinglePointFraction(y, height, water) == 0.0
    ensures y - height * 0.5 <= water <= y + height * 0.5 ==>
      SinglePointFraction(y, height, water) == (water - (y - height * 0.5)) / height
  {
    var bottom := y - height * 0.5;
    if bottom <= water <= y + height * 0.5 {
      CoveredShare(water - bottom, height);
    }
  }

  lemma CoveredShare(d: real, height: real)
    requires height > 0.0 && 0.0 <= d <= height
    ensures 0.0 <= d / height <= 1.0
  {
    assert (d / height) * height == d;
  }

  /** Higher water never leaves the body less submerged. */
  lemma SinglePointFractionRises(y: real, height: real, low: real, high: real)
    requires height > 0.0 && low <= high
    ensures SinglePointFraction(y, height, low) <= SinglePointFraction(y, height, high)
  {
    var bottom := y - height * 0.5;
    var top := y + height * 0.5;
    SinglePointFractionShare(y, height, low);
    SinglePointFractionShare(y, height, high);
    if bottom <= low && high <= top {
      QuotientMono(low - bottom, high - bottom, height);
    }
  }

  lemma QuotientMono(a: real, b: real, d: real)
    requires d > 0.0 && a <= b
    ensures a / d <= b / d
  {
    assert b / d - a / d == (b - a) / d;
  }

  /** A point's share of its quarter-height span below the water. In the
      middle branch the span is positive, so the division is always defined. */
  function PointSubmersion(y: real, height: real, water: real): (r: real)
    ensures 0.0 <= r <= 1.0
    ensures height >= 0.0 && y - height * 0.25 >= water ==> r == 0.0
    ensures y + height * 0.25 < water ==> r == 1.0
  {
    var bottom := y - height * 0.25;
    var top := y + height * 0.25;
    if top < water then 1.0
    else if bottom < water then Clamp01((water - bottom) / (height * 0.5))
    else 0.0
  }

  /** Higher water never leaves a point less submerged. */
  lemma PointSubmersionRises(y: real, height: real, low: real, high: real)
    requires low <= high
    ensures PointSubmersion(y, height, low) <= PointSubmersion(y, height, high)
  {
    var bottom := y - height * 0.25;
    var top := y + height * 0.25;
    if bottom < low && high <= top {
      QuotientMono(low - bottom, high - bottom, height * 0.5);
      Clamp01Monotone((low - bottom) / (height * 0.5), (high - bottom) / (height * 0.5));
    }
  }

  // ---------------------------------------------------------------------------
  // Multi-point forces

  /** What one buoyancy point adds: a force along the water normal, its torque
      about the body's position, and its submerged volume. */
  datatype PointShare = PointShare(force: Vec3, torque: Vec3, volume: real)

  const NoShare: PointShare := PointShare(Zero, Zero, 0.0)

  function AddShare(a: PointShare, b: PointShare): PointShare {
    PointShare(Add(a.force, b.force), Add(a.torque, b.torque), a.volume + b.volume)
  }

  /** Each of the `n` points stands for an n-th of the object's volume. */
  function PointVolume(s: FloatSettings, n: int, submersion: real): real
    requires n >= 1
  {
    (s.objectVolume / n as real) * submersion * s.submergedVolumeMultiplier
  }

  /** A point's force is capped at an n-th of the maximum force. */
  function PointForceMagnitude(s: FloatSettings, n: int, volume: real): (m: real)
    requires n >= 1
    ensures m <= s.maxBuoyancyForce / n as real
    ensures m == s.waterDensity * volume * Gravity || m == s.maxBuoyancyForce / n as real
  {
    Min(s.waterDensity * volume * Gravity, s.maxBuoyancyForce / n as real)
  }

  /** The share of the point at local position `local`: nothing unless it is
      at least partly below the water. */
  function ShareOf(s: FloatSettings, w: World, objectHeight: real, n: int, local: Vec3): PointShare
    requires n >= 1
  {
    var wp := w.toWorld(local);
    var sub := PointSubmersion(wp.y, objectHeight, w.waterHeight(wp));
    if sub > 0.0 then
      var volume := PointVolume(s, n, sub);
      var force := Scale(w.waterNormal(wp), PointForceMagnitude(s, n, volume));
      PointShare(force, Cross(Sub(wp, w.position), force), volume)
    else NoShare
  }

  /** The most one of `n` points can displace: an n-th of the multiplied object volume. */
  function PointCap(s: FloatSettings, n: int): real
    requires n >= 1
  {
    (s.objectVolume / n as real) * s.submergedVolumeMultiplier
  }

  /** A point's volume lies between none and its cap. */
  lemma ShareVolumeBounds(s: FloatSettings, w: World, objectHeight: real, n: int, local: Vec3)
    requires ValidSettings(s) && n >= 1
    ensures 0.0 <= ShareOf(s, w, objectHeight, n, local).volume <= PointCap(s, n)
  {
    var wp := w.toWorld(local);
    var sub := PointSubmersion(wp.y, objectHeight, w.waterHeight(wp));
    VolumeProduct(s.objectVolume, n, sub, s.submergedVolumeMultiplier);
  }

  /** The shares of `pts`, each point counted as one of `n`. */
  function SharesOf(s: FloatSettings, w: World, objectHeight: real, n: int, pts: seq<Vec3>): (r: seq<PointShare>)
    requires n >= |pts|
    ensures |r| == |pts|
    ensures forall k :: 0 <= k < |pts| ==> r[k] == ShareOf(s, w, objectHeight, n, pts[k])
  {
    seq(|pts|, k requires 0 <= k < |pts| => ShareOf(s, w, objectHeight, n, pts[k]))
  }

  /** The running sum of shares, in point order. */
  function Sum(shares: seq<PointShare>): PointShare {
    if |shares| == 0 then NoShare
    else AddShare(Sum(shares[..|shares| - 1]), shares[|shares| - 1])
  }

  /** The summed shares of `pts`. */
  function Totals(s: FloatSettings, w: World, objectHeight: real, n: int, pts: seq<Vec3>): PointShare
    requires n >= |pts|
  {
    Sum(SharesOf(s, w, objectHeight, n, pts))
  }

  /** Sampling one more point adds its share to the totals. */
  lemma TotalsStep(s: FloatSettings, w: World, objectHeight: real, n: int, pts: seq<Vec3>, i: int)
    requires 0 <= i < |pts| <= n
    ensures Totals(s, w, objectHeight, n, pts[..i + 1])
         == AddShare(Totals(s, w, objectHeight, n, pts[..i]), ShareOf(s, w, objectHeight, n, pts[i]))
  {
    var longer := SharesOf(s, w, objectHeight, n, pts[..i + 1]);
    assert longer[..i] == SharesOf(s, w, objectHeight, n, pts[..i]);
  }

  lemma VolumeProduct(v: real, n: int, sub: real, k: real)
    requires n >= 1 && v >= 0.0 && 0.0 <= sub <= 1.0 && k >= 0.0
    ensures 0.0 <= (v / n as real) * sub * k <= (v / n as real) * k
  {
    var share := v / n as real;
    assert share >= 0.0;
    MulMono(share, sub, 1.0);
    MulMono(k, share * sub, share);
    assert k * (share * sub) == share * sub * k;
    assert k * share == share * k;
  }

  /** Shares of at most `cap` each sum to at most `|shares|·cap`. */
  lemma {:induction false} SumVolumeBounds(shares: seq<PointShare>, cap: real)
    requires forall k :: 0 <= k < |shares| ==> 0.0 <= shares[k].volume <= cap
    ensures 0.0 <= Sum(shares).volume <= |shares| as real * cap
  {
    if |shares| > 0 {
      var init := shares[..|shares| - 1];
      assert forall k :: 0 <= k < |init| ==> init[k] == shares[k];
      SumVolumeBounds(init, cap);
      AddBelowCap(Sum(init).volume, shares[|shares| - 1].volume, |init|, |shares|, cap);
    }
  }

  lemma AddBelowCap(total: real, last: real, k: nat, m: nat, cap: real)
    requires m == k + 1 && total <= k as real * cap && last <= cap
    ensures total + last <= m as real * cap
  {
    assert (k + 1) as real * cap == k as real * cap + cap;
  }

  /** Each counted point adds between none and an n-th of the multiplied
      object volume; so the points' total never exceeds `|pts|` of those. */
  lemma TotalVolumeBounds(s: FloatSettings, w: World, objectHeight: real, n: int, pts: seq<Vec3>)
    requires ValidSettings(s) && n >= |pts| && n >= 1
    ensures 0.0 <= Totals(s, w, objectHeight, n, pts).volume <= |pts| as real * PointCap(s, n)
  {
    var shares := SharesOf(s, w, objectHeight, n, pts);
    forall k | 0 <= k < |shares|
      ensures 0.0 <= shares[k].volume <= PointCap(s, n)
    {
      ShareVolumeBounds(s, w, objectHeight, n, pts[k]);
    }
    SumVolumeBounds(shares, PointCap(s, n));
  }

  /** With all points counted, the submerged volume is at most the object's
      volume times the multiplier. */
  lemma AllPointsVolumeBound(s: FloatSettings, w: World, objectHeight: real)
    requires ValidSettings(s) && |s.buoyancyPoints| >= 1
    ensures 0.0 <= Totals(s, w, objectHeight, |s.buoyancyPoints|, s.buoyancyPoints).volume
              <= s.objectVolume * s.submergedVolumeMultiplier
  {
    var n := |s.buoyancyPoints|;
    TotalVolumeBounds(s, w, objectHeight, n, s.buoyancyPoints);
    CapsAddUp(s.objectVolume, n, s.submergedVolumeMultiplier);
  }

  lemma CapsAddUp(v: real, n: int, k: real)
    requires n >= 1
    ensures n as real * ((v / n as real) * k) == v * k
  {
    var share := v / n as real;
    assert n as real * share == v;
    assert n as real * (share * k) == (n as real * share) * k;
  }

  /** A point whose bottom is at or above the water adds nothing. */
  predicate Dry(w: World, objectHeight: real, local: Vec3) {
    var wp := w.toWorld(local);
    wp.y - objectHeight * 0.25 >= w.waterHeight(wp)
  }

  lemma DryShare(s: FloatSettings, w: World, objectHeight: real, n: int, local: Vec3)
    requires n >= 1 && objectHeight >= 0.0 && Dry(w, objectHeight, local)
    ensures ShareOf(s, w, objectHeight, n, local) == NoShare
  {
  }

  /** Empty shares sum to nothing. */
  lemma {:induction false} SumOfNothing(shares: seq<PointShare>)
    requires forall k :: 0 <= k < |shares| ==> shares[k] == NoShare
    ensures Sum(shares) == NoShare
  {
    if |shares| > 0 {
      var init := shares[..|shares| - 1];
      assert forall k :: 0 <= k < |init| ==> init[k] == shares[k];
      SumOfNothing(init);
      NoShareNeutral();
    }
  }

  lemma NoShareNeutral()
    ensures AddShare(NoShare, NoShare) == NoShare
  {
  }

  /** When every point is dry the totals are zero: no force, no torque, no volume. */
  lemma AllDryNoForce(s: FloatSettings, w: World, objectHeight: real, n: int, pts: seq<Vec3>)
    requires n >= |pts| && n >= 1 && objectHeight >= 0.0
    requires forall k :: 0 <= k < |pts| ==> Dry(w, objectHeight, pts[k])
    ensures Totals(s, w, objectHeight, n, pts) == NoShare
  {
    var shares := SharesOf(s, w, objectHeight, n, pts);
    forall k | 0 <= k < |shares|
      ensures shares[k] == NoShare
    {
      DryShare(s, w, objectHeight, n, pts[k]);
    }
    SumOfNothing(shares);
  }

  /** The overall fraction: the points' total volume against the object's. */
  function MultiPointFraction(s: FloatSettings, totalVolume: real): (p: real)
    requires ValidSettings(s)
    ensures 0.0 <= p <= 1.0
  {
    Clamp01(totalVolume / s.objectVolume)
  }

  // ---------------------------------------------------------------------------
  // Single-point force

  /** The single-point force magnitude, `min(ρ·V·p·multiplier·g, max)`. */
  function SingleForceMagnitude(s: FloatSettings, fraction: real): (m: real)
    ensures m <= s.maxBuoyancyForce
  {
    Min(s.waterDensity * (s.objectVolume * fraction * s.submergedVolumeMultiplier) * Gravity, s.maxBuoyancyForce)
  }

  lemma NonNegProduct(a: real, b: real)
    requires a >= 0.0 && b >= 0.0
    ensures a * b >= 0.0
  {
  }

  /** With valid settings and a fraction in [0, 1] the magnitude is never
      negative, and it grows with the fraction. */
  lemma SingleForceMagnitudeRises(s: FloatSettings, p: real, q: real)
    requires ValidSettings(s) && 0.0 <= p <= q
    ensures 0.0 <= SingleForceMagnitude(s, p) <= SingleForceMagnitude(s, q)
  {
    var v, k := s.objectVolume, s.submergedVolumeMultiplier;
    NonNegProduct(v, p);
    NonNegProduct(v * p, k);
    NonNegProduct(s.waterDensity, v * p * k);
    NonNegProduct(s.waterDensity * (v * p * k), Gravity);
    MulMono(v, p, q);
    MulMono(k, v * p, v * q);
    assert k * (v * p) == v * p * k && k * (v * q) == v * q * k;
    MulMono(s.waterDensity, v * p * k, v * q * k);
    MulMono(Gravity, s.waterDensity * (v * p * k), s.waterDensity * (v * q * k));
    assert Gravity * (s.waterDensity * (v * p * k)) == s.waterDensity * (v * p * k) * Gravity;
    assert Gravity * (s.waterDensity * (v * q * k)) == s.waterDensity * (v * q * k) * Gravity;
  }

  // ---------------------------------------------------------------------------
  // Forces applied to the body

  /** `|v| > 0.1`, compared on squares: both sides are non-negative. */
  predicate Noticeable(v: Vec3) {
    SqrMagnitude(v) > 0.01
  }

  /** The righting torque: about `up × world up`, growing with the tilt and the
      submerged share; applied only in multi-point mode when the body is
      tilted (`up · world up < 0.9`). */
  /** How hard a tilted body is turned back: `(1 - uprightness)·1000` times the submerged share. */
  function RightingStrength(uprightness: real, fraction: real): real {
    (1.0 - uprightness) * 1000.0 * fraction
  }

  function RightingCalls(s: FloatSettings, w: World, fraction: real): seq<RigidBodyCall> {
    var uprightness := Dot(w.up, Up);
    if s.useMultiplePoints && uprightness < 0.9
    then [AddTorque(Scale(Cross(w.up, Up), RightingStrength(uprightness, fraction)))]
    else []
  }

  /** The calls one step makes: nothing unless the buoyancy force is
      noticeable; then the force, the torque (multi-point mode, when
      noticeable), linear and angular damping scaled by the submerged share,
      and the righting torque. */
  function ForceCalls(s: FloatSettings, w: World, force: Vec3, torque: Vec3, fraction: real): seq<RigidBodyCall> {
    if Noticeable(force) then
      [AddForce(force)]
      + (if s.useMultiplePoints && Noticeable(torque) then [AddTorque(torque)] else [])
      + [AddForce(Scale(Scale(Neg(w.linearVelocity), s.linearDrag), fraction)),
         AddTorque(Scale(Scale(Neg(w.angularVelocity), s.angularDrag), fraction))]
      + RightingCalls(s, w, fraction)
    else []
  }

  /** A noticeable force yields three to five calls, led by the force itself;
      the summed torque is applied only in multi-point mode; a force of
      magnitude 0.1 or less yields none. */
  lemma ForceCallsShape(s: FloatSettings, w: World, force: Vec3, torque: Vec3, fraction: real)
    ensures var cs := ForceCalls(s, w, force, torque, fraction);
      (!Noticeable(force) <==> cs == [])
      && (Noticeable(force) ==> 3 <= |cs| <= 5 && cs[0] == AddForce(force))
      && (!s.useMultiplePoints ==> |cs| == 0 || |cs| == 3)
  {
  }

  // ---------------------------------------------------------------------------
  // The component

  /** Resampling happens on the steps whose incremented counter is even. */
  predicate ShouldSample(counter: int) {
    counter % 2 == 0
  }

  class SimpleBuoyancy {
    const settings: FloatSettings
    const hasRigidBody: bool
    const hasGenerator: bool
    var currentWaterHeight: real
    var currentWaterNormal: Vec3
    var submergedPercentage: real
    var buoyancyForce: Vec3
    var totalTorque: Vec3
    var sampleFrameCounter: int
    /** The calls made on the rigid body so far, in order. */
    var calls: seq<RigidBodyCall>

    /** The submerged share stays in [0, 1]. */
    ghost predicate Valid()
      reads this
    {
      ValidSettings(settings) && 0.0 <= submergedPercentage <= 1.0
    }

    constructor (settings: FloatSettings, hasRigidBody: bool, hasGenerator: bool)
      requires ValidSettings(settings)
      ensures Valid()
      ensures this.settings == settings && this.hasRigidBody == hasRigidBody && this.hasGenerator == hasGenerator
      ensures currentWaterHeight == 0.0 && currentWaterNormal == Up && submergedPercentage == 0.0
      ensures buoyancyForce == Zero && totalTorque == Zero && sampleFrameCounter == 0 && calls == []
    {
      this.settings := settings;
      this.hasRigidBody := hasRigidBody;
      this.hasGenerator := hasGenerator;
      currentWaterHeight := 0.0;
      currentWaterNormal := Up;
      submergedPercentage := 0.0;
      buoyancyForce := Zero;
      totalTorque := Zero;
      sampleFrameCounter := 0;
      calls := [];
    }

    predicate IsFloating()
      reads this
    {
      0.0 < submergedPercentage < 1.0
    }

    predicate IsUnderwater()
      reads this
    {
      submergedPercentage >= 1.0
    }

    /** Floating and under water exclude each other; with a share in [0, 1],
        under water means fully submerged. */
    lemma FloatingOrUnderwater()
      requires Valid()
      ensures !(IsFloating() && IsUnderwater())
      ensures IsUnderwater() <==> submergedPercentage == 1.0
      ensures !IsFloating() && !IsUnderwater() <==> submergedPercentage == 0.0
    {
    }

    /** The single-point fraction for the body's current position and water height. */
    method CalculateSubmersionSinglePoint(w: World, objectPosition: Vec3)
      requires ObjectHeight(w) > 0.0
      modifies this
      ensures submergedPercentage == SinglePointFraction(objectPosition.y, ObjectHeight(w), currentWaterHeight)
      ensures 0.0 <= submergedPercentage <= 1.0
      ensures currentWaterHeight == old(currentWaterHeight) && currentWaterNormal == old(currentWaterNormal)
      ensures buoyancyForce == old(buoyancyForce) && totalTorque == old(totalTorque)
      ensures sampleFrameCounter == old(sampleFrameCounter) && calls == old(calls)
    {
      submergedPercentage := SinglePointFraction(objectPosition.y, ObjectHeight(w), currentWaterHeight);
    }

    /** The loop over the buoyancy points: each point's force, torque and
        volume added to the running sums, in point order. */
    method SamplePoints(w: World, objectHeight: real) returns (force: Vec3, torque: Vec3, total: real)
      ensures PointShare(force, torque, total)
           == Totals(settings, w, objectHeight, |settings.buoyancyPoints|, settings.buoyancyPoints)
    {
      var pts := settings.buoyancyPoints;
      var n := |pts|;
      force, torque, total := Zero, Zero, 0.0;
      for i := 0 to n
        invariant PointShare(force, torque, total) == Totals(settings, w, objectHeight, n, pts[..i])
      {
        TotalsStep(settings, w, objectHeight, n, pts, i);
        var share := ShareOf(settings, w, objectHeight, n, pts[i]);
        force := Add(force, share.force);
        torque := Add(torque, share.torque);
        total := total + share.volume;
      }
      assert pts[..n] == pts;
    }

    /** Samples every buoyancy point and sums the forces, torques and volumes;
        the share is the total volume against the object's, and the water data
        kept for display is the sample under the body's position. */
    method CalculateMultiPointBuoyancy(w: World)
      requires ValidSettings(settings)
      modifies this
      ensures var t := Totals(settings, w, ObjectHeight(w), |settings.buoyancyPoints|, settings.buoyancyPoints);
        buoyancyForce == t.force && totalTorque == t.torque
        && submergedPercentage == MultiPointFraction(settings, t.volume)
      ensures currentWaterHeight == w.waterHeight(w.position) && currentWaterNormal == w.waterNormal(w.position)
      ensures sampleFrameCounter == old(sampleFrameCounter) && calls == old(calls)
    {
      var force, torque, total := SamplePoints(w, ObjectHeight(w));
      buoyancyForce := force;
      totalTorque := torque;
      submergedPercentage := MultiPointFraction(settings, total);
      currentWaterHeight := w.waterHeight(w.position);
      currentWaterNormal := w.waterNormal(w.position);
    }

    /** Re-samples the water when `shouldSample` holds: the single sample under
        the body, or all points in multi-point mode. */
    method UpdateWaterData(w: World, shouldSample: bool)
      requires ValidSettings(settings) && (settings.useMultiplePoints || ObjectHeight(w) > 0.0)
      modifies this
      ensures !shouldSample ==> (currentWaterHeight == old(currentWaterHeight) && currentWaterNormal == old(currentWaterNormal)
        && submergedPercentage == old(submergedPercentage)
        && buoyancyForce == old(buoyancyForce) && totalTorque == old(totalTorque))
      ensures shouldSample && !settings.useMultiplePoints ==>
        currentWaterHeight == w.waterHeight(w.position) && currentWaterNormal == w.waterNormal(w.position)
        && submergedPercentage == SinglePointFraction(w.position.y, ObjectHeight(w), currentWaterHeight)
        && buoyancyForce == old(buoyancyForce) && totalTorque == old(totalTorque)
      ensures shouldSample && settings.useMultiplePoints ==>
        var t := Totals(settings, w, ObjectHeight(w), |settings.buoyancyPoints|, settings.buoyancyPoints);
        buoyancyForce == t.force && totalTorque == t.torque
        && submergedPercentage == MultiPointFraction(settings, t.volume)
        && currentWaterHeight == w.waterHeight(w.position) && currentWaterNormal == w.waterNormal(w.position)
      ensures 0.0 <= old(submergedPercentage) <= 1.0 ==> 0.0 <= submergedPercentage <= 1.0
      ensures sampleFrameCounter == old(sampleFrameCounter) && calls == old(calls)
    {
      if !settings.useMultiplePoints {
        if shouldSample {
          var objectPosition := w.position;
          currentWaterHeight := w.waterHeight(objectPosition);
          currentWaterNormal := w.waterNormal(objectPosition);
          CalculateSubmersionSinglePoint(w, objectPosition);
        }
      } else {
        if shouldSample {
          CalculateMultiPointBuoyancy(w);
        }
      }
    }

    /** Single-point mode: the force from the current share along the current
        normal, or zero when nothing is submerged (the torque is then left as
        it was). Multi-point mode keeps what the sampling computed. */
    method CalculateBuoyancy()
      modifies this
      ensures settings.useMultiplePoints ==> buoyancyForce == old(buoyancyForce) && totalTorque == old(totalTorque)
      ensures !settings.useMultiplePoints && submergedPercentage <= 0.0 ==>
        buoyancyForce == Zero && totalTorque == old(totalTorque)
      ensures !settings.useMultiplePoints && submergedPercentage > 0.0 ==>
        buoyancyForce == Scale(currentWaterNormal, SingleForceMagnitude(settings, submergedPercentage))
        && totalTorque == Zero
      ensures currentWaterHeight == old(currentWaterHeight) && currentWaterNormal == old(currentWaterNormal)
      ensures submergedPercentage == old(submergedPercentage)
      ensures sampleFrameCounter == old(sampleFrameCounter) && calls == old(calls)
    {
      if !settings.useMultiplePoints {
        if submergedPercentage <= 0.0 {
          buoyancyForce := Zero;
          return;
        }
        var magnitude := SingleForceMagnitude(settings, submergedPercentage);
        buoyancyForce := Scale(currentWaterNormal, magnitude);
        totalTorque := Zero;
      }
    }

    /** Applies the step's force, torque, damping and righting torque. */
    method ApplyBuoyancyForce(w: World)
      modifies this
      ensures calls == old(calls) + ForceCalls(settings, w, buoyancyForce, totalTorque, submergedPercentage)
      ensures currentWaterHeight == old(currentWaterHeight) && currentWaterNormal == old(currentWaterNormal)
      ensures submergedPercentage == old(submergedPercentage)
      ensures buoyancyForce == old(buoyancyForce) && totalTorque == old(totalTorque)
      ensures sampleFrameCounter == old(sampleFrameCounter)
    {
      if Noticeable(buoyancyForce) {
        calls := calls + [AddForce(buoyancyForce)];
        if settings.useMultiplePoints && Noticeable(totalTorque) {
          calls := calls + [AddTorque(totalTorque)];
        }
        var dampingForce := Scale(Scale(Neg(w.linearVelocity), settings.linearDrag), submergedPercentage);
        calls := calls + [AddForce(dampingForce)];
        var angularDampingTorque := Scale(Scale(Neg(w.angularVelocity), settings.angularDrag), submergedPercentage);
        calls := calls + [AddTorque(angularDampingTorque)];
        ApplyRightingTorque(w);
      }
    }

    /** Multi-point mode only: a body tilted past `uprightness < 0.9` gets a
        torque about `up × Vector3.up`, stronger the further it leans. */
    method ApplyRightingTorque(w: World)
      modifies this
      ensures calls == old(calls) + RightingCalls(settings, w, submergedPercentage)
      ensures currentWaterHeight == old(currentWaterHeight) && currentWaterNormal == old(currentWaterNormal)
      ensures submergedPercentage == old(submergedPercentage)
      ensures buoyancyForce == old(buoyancyForce) && totalTorque == old(totalTorque)
      ensures sampleFrameCounter == old(sampleFrameCounter)
    {
      if settings.useMultiplePoints {
        var uprightness := Dot(w.up, Up);
        if uprightness < 0.9 {
          var correctiveAxis := Cross(w.up, Up);
          var correctionMagnitude := RightingStrength(uprightness, submergedPercentage);
          calls := calls + [AddTorque(Scale(correctiveAxis, correctionMagnitude))];
        }
      }
    }

    /** One physics step: without a rigid body or an ocean nothing happens;
        otherwise the counter advances, the water is re-sampled on even counts,
        and the force is computed and applied. */
    method FixedUpdate(w: World)
      requires Valid() && (settings.useMultiplePoints || ObjectHeight(w) > 0.0)
      modifies this
      ensures Valid()
      ensures !(hasRigidBody && hasGenerator) ==>
        sampleFrameCounter == old(sampleFrameCounter) && calls == old(calls)
        && submergedPercentage == old(submergedPercentage) && currentWaterHeight == old(currentWaterHeight)
        && currentWaterNormal == old(currentWaterNormal)
        && buoyancyForce == old(buoyancyForce) && totalTorque == old(totalTorque)
      ensures hasRigidBody && hasGenerator ==> sampleFrameCounter == old(sampleFrameCounter) + 1
      ensures hasRigidBody && hasGenerator && !ShouldSample(sampleFrameCounter) ==>
        submergedPercentage == old(submergedPercentage) && currentWaterHeight == old(currentWaterHeight)
        && currentWaterNormal == old(currentWaterNormal)
      ensures hasRigidBody && hasGenerator && ShouldSample(sampleFrameCounter) ==>
        currentWaterHeight == w.waterHeight(w.position) && currentWaterNormal == w.waterNormal(w.position)
      ensures hasRigidBody && hasGenerator && ShouldSample(sampleFrameCounter) && !settings.useMultiplePoints ==>
        submergedPercentage == SinglePointFraction(w.position.y, ObjectHeight(w), w.waterHeight(w.position))
      ensures hasRigidBody && hasGenerator && ShouldSample(sampleFrameCounter) && settings.useMultiplePoints ==>
        var t := Totals(settings, w, ObjectHeight(w), |settings.buoyancyPoints|, settings.buoyancyPoints);
        buoyancyForce == t.force && totalTorque == t.torque
        && submergedPercentage == MultiPointFraction(settings, t.volume)
      ensures hasRigidBody && hasGenerator && !ShouldSample(sampleFrameCounter) && settings.useMultiplePoints ==>
        buoyancyForce == old(buoyancyForce) && totalTorque == old(totalTorque)
      ensures hasRigidBody && hasGenerator && !settings.useMultiplePoints ==>
        (submergedPercentage <= 0.0 ==> buoyancyForce == Zero && totalTorque == old(totalTorque))
        && (submergedPercentage > 0.0 ==>
              buoyancyForce == Scale(currentWaterNormal, SingleForceMagnitude(settings, submergedPercentage))
              && totalTorque == Zero)
      ensures hasRigidBody && hasGenerator ==>
        calls == old(calls) + ForceCalls(settings, w, buoyancyForce, totalTorque, submergedPercentage)
    {
      if !hasRigidBody || !hasGenerator {
        return;
      }
      sampleFrameCounter := sampleFrameCounter + 1;
      var shouldSample := sampleFrameCounter % 2 == 0;
      UpdateWaterData(w, shouldSample);
      CalculateBuoyancy();
      ApplyBuoyancyForce(w);
    }
  }

  /** Two steps in a row sample exactly once: the counter's parity alternates. */
  lemma SamplesEverySecondStep(counter: int)
    ensures ShouldSample(counter) <==> !ShouldSample(counter + 1)
  {
  }
}
