/** The storm controller: six weather controls in percent (and a wind
    direction in degrees) mapped onto the ocean's physical settings, named
    weather presets, and the per-frame change detection that decides when
    the ocean is rebuilt. */
module StormControl {
  import opened UnityMath

  // ---------------------------------------------------------------------------
  // Controls and presets

  /** The six weather controls: storm intensity, wave size, wind strength,
      choppiness and foam in percent; wind direction in degrees. */
  datatype Controls = Controls(
    stormIntensity: real,
    waveSize: real,
    windStrength: real,
    windDirection: real,
    choppiness: real,
    foamAmount: real)

  /** A named set of control values. */
  datatype WeatherPreset = WeatherPreset(name: string, values: Controls)

  /** The inspector's initial control values. */
  const DefaultControls: Controls := Controls(30.0, 50.0, 40.0, 45.0, 50.0, 40.0)

  /** The controller's built-in presets, mildest first. */
  const DefaultPresets: seq<WeatherPreset> := [
    WeatherPreset("Calm", Controls(10.0, 20.0, 15.0, 0.0, 20.0, 10.0)),
    WeatherPreset("Light Breeze", Controls(25.0, 35.0, 30.0, 45.0, 40.0, 25.0)),
    WeatherPreset("Moderate", Controls(45.0, 55.0, 50.0, 90.0, 60.0, 45.0)),
    WeatherPreset("Rough Seas", Controls(70.0, 75.0, 70.0, 135.0, 80.0, 70.0)),
    WeatherPreset("Storm", Controls(90.0, 90.0, 85.0, 180.0, 90.0, 85.0)),
    WeatherPreset("Hurricane", Controls(100.0, 100.0, 100.0, 225.0, 100.0, 100.0))
  ]

  /** The five percentage controls lie on their [0, 100] sliders. */
  predicate PercentsInRange(c: Controls) {
    0.0 <= c.stormIntensity <= 100.0 && 0.0 <= c.waveSize <= 100.0 && 0.0 <= c.windStrength <= 100.0
    && 0.0 <= c.choppiness <= 100.0 && 0.0 <= c.foamAmount <= 100.0
  }

  /** All six controls lie on their sliders; the direction slider spans [0, 360]. */
  predicate InSliderRange(c: Controls) {
    PercentsInRange(c) && 0.0 <= c.windDirection <= 360.0
  }

  /** Every built-in preset sits on the sliders, and the presets grow strictly
      stormier in order. */
  lemma DefaultPresetsInRange()
    ensures forall i :: 0 <= i < |DefaultPresets| ==> InSliderRange(DefaultPresets[i].values)
    ensures forall i, j :: 0 <= i < j < |DefaultPresets| ==>
      DefaultPresets[i].values.stormIntensity < DefaultPresets[j].values.stormIntensity
  {
  }

  /** The index of the first preset called `presetName`, if there is one. */
  function FirstPreset(presets: seq<WeatherPreset>, presetName: string): (r: Option<nat>)
    ensures r.Some? ==> (r.value < |presets| && presets[r.value].name == presetName
      && forall j :: 0 <= j < r.value ==> presets[j].name != presetName)
    ensures r.None? <==> forall j :: 0 <= j < |presets| ==> presets[j].name != presetName
  {
    FirstPresetFrom(presets, presetName, 0)
  }

  function FirstPresetFrom(presets: seq<WeatherPreset>, presetName: string, k: nat): (r: Option<nat>)
    requires k <= |presets|
    ensures r.Some? ==> (k <= r.value < |presets| && presets[r.value].name == presetName
      && forall j :: k <= j < r.value ==> presets[j].name != presetName)
    ensures r.None? <==> forall j :: k <= j < |presets| ==> presets[j].name != presetName
    decreases |presets| - k
  {
    if k == |presets| then None
    else if presets[k].name == presetName then Some(k)
    else FirstPresetFrom(presets, presetName, k + 1)
  }

  /** With the built-in presets, the quick calls by name reach the preset the
      matching button selects by index. */
  lemma QuickPresetsByName()
    ensures FirstPreset(DefaultPresets, "Calm") == Some(0)
    ensures FirstPreset(DefaultPresets, "Moderate") == Some(2)
    ensures FirstPreset(DefaultPresets, "Storm") == Some(4)
    ensures FirstPreset(DefaultPresets, "Hurricane") == Some(5)
  {
    assert DefaultPresets[0].name == "Calm";
    assert DefaultPresets[2].name == "Moderate";
    assert DefaultPresets[4].name == "Storm";
    assert DefaultPresets[5].name == "Hurricane";
  }

  // ---------------------------------------------------------------------------
  // From controls to ocean parameters

  /** Wind speed in m/s: wind strength 0–100 % spans 5–50 m/s. */
  function WindSpeed(c: Controls): (r: real)
    ensures 5.0 <= r <= 50.0
  {
    LerpBetween(5.0, 50.0, c.windStrength / 100.0);
    Lerp(5.0, 50.0, c.windStrength / 100.0)
  }

  /** Choppiness 0–100 % spans a chop factor of 0.1–2. */
  function WaveChopyFactor(c: Controls): (r: real)
    ensures 0.1 <= r <= 2.0
  {
    LerpBetween(0.1, 2.0, c.choppiness / 100.0);
    Lerp(0.1, 2.0, c.choppiness / 100.0)
  }

  /** Foam amount 0–100 % spans a foam intensity of 0–2. */
  function FoamIntensity(c: Controls): (r: real)
    ensures 0.0 <= r <= 2.0
  {
    LerpBetween(0.0, 2.0, c.foamAmount / 100.0);
    Lerp(0.0, 2.0, c.foamAmount / 100.0)
  }

  /** More foam decays more slowly: the decay falls from 0.2 to 0.05. */
  function FoamDecay(c: Controls): (r: real)
    ensures 0.05 <= r <= 0.2
  {
    LerpBetween(0.2, 0.05, c.foamAmount / 100.0);
    Lerp(0.2, 0.05, c.foamAmount / 100.0)
  }

  /** A stormier sea has less swell: the swell falls from 0.8 to 0.2. */
  function Swell(c: Controls): (r: real)
    ensures 0.2 <= r <= 0.8
  {
    LerpBetween(0.8, 0.2, c.stormIntensity / 100.0);
    Lerp(0.8, 0.2, c.stormIntensity / 100.0)
  }

  lemma WindSpeedRises(c: Controls, d: Controls)
    requires c.windStrength <= d.windStrength
    ensures WindSpeed(c) <= WindSpeed(d)
  {
    LerpRisingMonotone(5.0, 50.0, c.windStrength / 100.0, d.windStrength / 100.0);
  }

  lemma FoamRisesAndLasts(c: Controls, d: Controls)
    requires c.foamAmount <= d.foamAmount
    ensures FoamIntensity(c) <= FoamIntensity(d)
    ensures FoamDecay(d) <= FoamDecay(c)
  {
    LerpRisingMonotone(0.0, 2.0, c.foamAmount / 100.0, d.foamAmount / 100.0);
    LerpFallingMonotone(0.2, 0.05, c.foamAmount / 100.0, d.foamAmount / 100.0);
  }

  lemma SwellFalls(c: Controls, d: Controls)
    requires c.stormIntensity <= d.stormIntensity
    ensures Swell(d) <= Swell(c)
  {
    LerpFallingMonotone(0.8, 0.2, c.stormIntensity / 100.0, d.stormIntensity / 100.0);
  }

  /** A cascade's unrounded length scale: the wave size picks a point of
      [lo, hi], and the storm intensity (not clamped) stretches it by up to
      `gain`. */
  function WaveScale(lo: real, hi: real, gain: real, c: Controls): real {
    Lerp(lo, hi, c.waveSize / 100.0) * (1.0 + c.stormIntensity / 100.0 * gain)
  }

  /** Length scale of the small-wave cascade. */
  function SmallScale(c: Controls): int {
    RoundToInt(WaveScale(20.0, 100.0, 0.5, c))
  }

  /** Length scale of the medium-wave cascade. */
  function MediumScale(c: Controls): int {
    RoundToInt(WaveScale(100.0, 400.0, 0.7, c))
  }

  /** Length scale of the large-swell cascade. */
  function LargeScale(c: Controls): int {
    RoundToInt(WaveScale(300.0, 800.0, 0.3, c))
  }

  /** On the storm slider, a scale lies between `lo` and `hi` stretched by the full gain. */
  lemma WaveScaleBounds(lo: real, hi: real, gain: real, c: Controls)
    requires 0.0 <= lo <= hi && 0.0 <= gain && 0.0 <= c.stormIntensity <= 100.0
    ensures lo <= WaveScale(lo, hi, gain, c) <= hi * (1.0 + gain)
  {
    var base := Lerp(lo, hi, c.waveSize / 100.0);
    var s := c.stormIntensity / 100.0;
    LerpBetween(lo, hi, c.waveSize / 100.0);
    ScaleByUnit(gain, s);
    var stretch := 1.0 + s * gain;
    assert s * gain == gain * s;
    StretchBounds(lo, hi, gain, base, stretch);
    assert WaveScale(lo, hi, gain, c) == base * stretch;
  }

  lemma StretchBounds(lo: real, hi: real, gain: real, base: real, stretch: real)
    requires 0.0 <= lo <= base <= hi && 1.0 <= stretch <= 1.0 + gain
    ensures lo <= base * stretch <= hi * (1.0 + gain)
  {
    MulMono(base, 1.0, stretch);
    MulMono(stretch, base, hi);
    MulMono(hi, stretch, 1.0 + gain);
    assert stretch * base == base * stretch && stretch * hi == hi * stretch;
  }

  /** On the storm slider, bigger waves never shrink a cascade. */
  lemma WaveScaleRisesWithWaves(lo: real, hi: real, gain: real, c: Controls, d: Controls)
    requires lo <= hi && 0.0 <= gain && 0.0 <= c.stormIntensity <= 100.0
    requires d.stormIntensity == c.stormIntensity && c.waveSize <= d.waveSize
    ensures WaveScale(lo, hi, gain, c) <= WaveScale(lo, hi, gain, d)
  {
    var s := c.stormIntensity / 100.0;
    ScaleByUnit(gain, s);
    var stretch := 1.0 + s * gain;
    assert s * gain == gain * s;
    LerpRisingMonotone(lo, hi, c.waveSize / 100.0, d.waveSize / 100.0);
    MulMono(stretch, Lerp(lo, hi, c.waveSize / 100.0), Lerp(lo, hi, d.waveSize / 100.0));
    assert WaveScale(lo, hi, gain, c) == Lerp(lo, hi, c.waveSize / 100.0) * stretch;
    assert WaveScale(lo, hi, gain, d) == Lerp(lo, hi, d.waveSize / 100.0) * stretch;
  }

  /** A stormier sea never shrinks a cascade. */
  lemma WaveScaleRisesWithStorm(lo: real, hi: real, gain: real, c: Controls, d: Controls)
    requires 0.0 <= lo <= hi && 0.0 <= gain
    requires d.waveSize == c.waveSize && c.stormIntensity <= d.stormIntensity
    ensures WaveScale(lo, hi, gain, c) <= WaveScale(lo, hi, gain, d)
  {
    var base := Lerp(lo, hi, c.waveSize / 100.0);
    LerpBetween(lo, hi, c.waveSize / 100.0);
    var sc, sd := c.stormIntensity / 100.0, d.stormIntensity / 100.0;
    MulMono(gain, sc, sd);
    assert sc * gain == gain * sc && sd * gain == gain * sd;
    MulMono(base, 1.0 + sc * gain, 1.0 + sd * gain);
    assert WaveScale(lo, hi, gain, c) == base * (1.0 + sc * gain);
    assert WaveScale(lo, hi, gain, d) == base * (1.0 + sd * gain);
  }

  /** On the storm slider the three rounded length scales stay within
      [20, 150], [100, 680] and [300, 1040]. */
  lemma CascadeScalesInRange(c: Controls)
    requires 0.0 <= c.stormIntensity <= 100.0
    ensures 20 <= SmallScale(c) <= 150
    ensures 100 <= MediumScale(c) <= 680
    ensures 300 <= LargeScale(c) <= 1040
  {
    WaveScaleBounds(20.0, 100.0, 0.5, c);
    WaveScaleBounds(100.0, 400.0, 0.7, c);
    WaveScaleBounds(300.0, 800.0, 0.3, c);
  }

  // ---------------------------------------------------------------------------
  // Smooth transitions

  /** Mathf.Repeat: `t` wrapped into [0, length]. */
  function Repeat(t: real, length: real): (r: real)
    requires length > 0.0
    ensures 0.0 <= r <= length
  {
    Clamp(t - FloorToInt(t / length) as real * length, 0.0, length)
  }

  /** `k` whole turns, in degrees. */
  function WholeTurns(k: int): real {
    360.0 * k as real
  }

  /** Mathf.LerpAngle: interpolation along the shorter way round the circle. */
  function LerpAngle(a: real, b: real, t: real): real {
    var delta := Repeat(b - a, 360.0);
    var turn := if delta > 180.0 then delta - 360.0 else delta;
    a + turn * Clamp01(t)
  }

  /** The turn LerpAngle takes is the difference `b - a` shifted by whole
      turns into (-180, 180]. */
  lemma ShortestTurn(a: real, b: real)
    ensures var delta := Repeat(b - a, 360.0);
      var turn := if delta > 180.0 then delta - 360.0 else delta;
      -180.0 <= turn <= 180.0 && exists k: int :: turn == b - a + WholeTurns(k)
  {
    var x := b - a;
    var f := FloorToInt(x / 360.0);
    assert f as real * 360.0 <= x < f as real * 360.0 + 360.0;
    var delta := Repeat(x, 360.0);
    assert delta == x - f as real * 360.0;
    if delta > 180.0 {
      assert delta - 360.0 == x + WholeTurns(-f - 1);
    } else {
      assert delta == x + WholeTurns(-f);
    }
  }

  /** A step of LerpAngle never turns by more than half a circle. */
  lemma LerpAngleShortWay(a: real, b: real, t: real)
    ensures a - 180.0 <= LerpAngle(a, b, t) <= a + 180.0
  {
    ShortestTurn(a, b);
    var delta := Repeat(b - a, 360.0);
    var turn := if delta > 180.0 then delta - 360.0 else delta;
    assert -180.0 <= turn <= 180.0;
    var c := Clamp01(t);
    var p := turn * c;
    ScaleByUnit(turn, c);
    assert -180.0 <= p <= 180.0;
    assert LerpAngle(a, b, t) == a + p;
  }

  /** A full step of LerpAngle lands on `b`, up to whole turns. */
  lemma LerpAngleArrives(a: real, b: real, t: real)
    requires t >= 1.0
    ensures exists k: int :: LerpAngle(a, b, t) == b + WholeTurns(k)
  {
    ShortestTurn(a, b);
    assert Clamp01(t) == 1.0;
  }

  /** The fraction of the way one frame's smoothing step covers. */
  function SmoothingStep(frameTime: real, transitionSpeed: real): real {
    frameTime * transitionSpeed
  }

  /** One smoothing step from `from` towards `to` by the fraction `dt`. */
  function Transition(from: Controls, to: Controls, dt: real): Controls {
    Controls(
      Lerp(from.stormIntensity, to.stormIntensity, dt),
      Lerp(from.waveSize, to.waveSize, dt),
      Lerp(from.windStrength, to.windStrength, dt),
      LerpAngle(from.windDirection, to.windDirection, dt),
      Lerp(from.choppiness, to.choppiness, dt),
      Lerp(from.foamAmount, to.foamAmount, dt))
  }

  /** A smoothing step keeps each percentage between where it was and where it
      is heading; so, between two in-range control sets, it stays in range. */
  lemma TransitionBetween(from: Controls, to: Controls, dt: real)
    ensures var n := Transition(from, to, dt);
      Min(from.stormIntensity, to.stormIntensity) <= n.stormIntensity <= Max(from.stormIntensity, to.stormIntensity)
      && Min(from.waveSize, to.waveSize) <= n.waveSize <= Max(from.waveSize, to.waveSize)
      && Min(from.windStrength, to.windStrength) <= n.windStrength <= Max(from.windStrength, to.windStrength)
      && Min(from.choppiness, to.choppiness) <= n.choppiness <= Max(from.choppiness, to.choppiness)
      && Min(from.foamAmount, to.foamAmount) <= n.foamAmount <= Max(from.foamAmount, to.foamAmount)
    ensures PercentsInRange(from) && PercentsInRange(to) ==> PercentsInRange(Transition(from, to, dt))
  {
    LerpBetween(from.stormIntensity, to.stormIntensity, dt);
    LerpBetween(from.waveSize, to.waveSize, dt);
    LerpBetween(from.windStrength, to.windStrength, dt);
    LerpBetween(from.choppiness, to.choppiness, dt);
    LerpBetween(from.foamAmount, to.foamAmount, dt);
  }

  /** A step of a whole frame or more reaches the controls, the direction up to whole turns. */
  lemma TransitionArrives(from: Controls, to: Controls, dt: real)
    requires dt >= 1.0
    ensures var n := Transition(from, to, dt);
      n.stormIntensity == to.stormIntensity && n.waveSize == to.waveSize
      && n.windStrength == to.windStrength && n.choppiness == to.choppiness
      && n.foamAmount == to.foamAmount
      && exists k: int :: n.windDirection == to.windDirection + WholeTurns(k)
  {
    LerpAngleArrives(from.windDirection, to.windDirection, dt);
  }

  /** Once the targets have reached the controls, smoothing leaves them there. */
  lemma TransitionSettled(c: Controls, dt: real)
    ensures Transition(c, c, dt) == c
  {
    var f := FloorToInt(0.0 / 360.0);
    assert f == 0;
    assert Repeat(0.0, 360.0) == 0.0;
    assert LerpAngle(c.windDirection, c.windDirection, dt) == c.windDirection;
  }

  // ---------------------------------------------------------------------------
  // Change detection

  /** The smallest positive single-precision value. */
  const FloatMinDenormal: real := 1.401298e-45

  /** Mathf.Approximately: equal up to a relative tolerance of one millionth,
      with a floor of eight times the smallest positive float. */
  predicate Approximately(a: real, b: real) {
    Abs(b - a) < Max(0.000001 * Max(Abs(a), Abs(b)), FloatMinDenormal * 8.0)
  }

  /** Some target differs noticeably from its cached value. */
  predicate Changed(target: Controls, cached: Controls) {
    !Approximately(target.stormIntensity, cached.stormIntensity)
    || !Approximately(target.waveSize, cached.waveSize)
    || !Approximately(target.windStrength, cached.windStrength)
    || !Approximately(target.windDirection, cached.windDirection)
    || !Approximately(target.choppiness, cached.choppiness)
    || !Approximately(target.foamAmount, cached.foamAmount)
  }

  /** A change is reported only when some target really differs from the cache;
      so right after caching the targets nothing is reported. */
  lemma ChangedOnlyWhenDifferent(target: Controls, cached: Controls)
    ensures Changed(target, cached) ==> target != cached
  {
    if target == cached {
      assert Approximately(target.stormIntensity, cached.stormIntensity);
      assert Approximately(target.waveSize, cached.waveSize);
      assert Approximately(target.windStrength, cached.windStrength);
      assert Approximately(target.windDirection, cached.windDirection);
      assert Approximately(target.choppiness, cached.choppiness);
      assert Approximately(target.foamAmount, cached.foamAmount);
    }
  }

  /** Two values on a slider no wider than 360 that differ by a thousandth or
      more are never taken for equal. */
  lemma SliderMoveNoticed(a: real, b: real)
    requires -360.0 <= a <= 360.0 && -360.0 <= b <= 360.0
    requires Abs(b - a) >= 0.001
    ensures !Approximately(a, b)
  {
  }

  /** Moving any slider by a thousandth or more is detected. */
  lemma SliderChangeNoticed(target: Controls, cached: Controls)
    requires InSliderRange(target) && InSliderRange(cached)
    requires Abs(target.stormIntensity - cached.stormIntensity) >= 0.001
      || Abs(target.waveSize - cached.waveSize) >= 0.001
      || Abs(target.windStrength - cached.windStrength) >= 0.001
      || Abs(target.windDirection - cached.windDirection) >= 0.001
      || Abs(target.choppiness - cached.choppiness) >= 0.001
      || Abs(target.foamAmount - cached.foamAmount) >= 0.001
    ensures Changed(target, cached)
  {
    if Abs(target.stormIntensity - cached.stormIntensity) >= 0.001 {
      SliderMoveNoticed(target.stormIntensity, cached.stormIntensity);
    } else if Abs(target.waveSize - cached.waveSize) >= 0.001 {
      SliderMoveNoticed(target.waveSize, cached.waveSize);
    } else if Abs(target.windStrength - cached.windStrength) >= 0.001 {
      SliderMoveNoticed(target.windStrength, cached.windStrength);
    } else if Abs(target.windDirection - cached.windDirection) >= 0.001 {
      SliderMoveNoticed(target.windDirection, cached.windDirection);
    } else if Abs(target.choppiness - cached.choppiness) >= 0.001 {
      SliderMoveNoticed(target.choppiness, cached.choppiness);
    } else {
      SliderMoveNoticed(target.foamAmount, cached.foamAmount);
    }
  }

  // ---------------------------------------------------------------------------
  // Weather description

  /** The six weather states the debug description distinguishes. */
  datatype WeatherState = PeacefulWaters | LightBreeze | ModerateSeas | RoughWaters | Storm | Hurricane

  function Severity(w: WeatherState): nat {
    match w
    case PeacefulWaters => 0
    case LightBreeze => 1
    case ModerateSeas => 2
    case RoughWaters => 3
    case Storm => 4
    case Hurricane => 5
  }

  /** The weather state for a storm intensity, by thresholds 20, 40, 60, 80 and 95. */
  function Weather(intensity: real): WeatherState {
    if intensity < 20.0 then PeacefulWaters
    else if intensity < 40.0 then LightBreeze
    else if intensity < 60.0 then ModerateSeas
    else if intensity < 80.0 then RoughWaters
    else if intensity < 95.0 then Storm
    else Hurricane
  }

  /** A stormier sea is never described as calmer. */
  lemma WeatherMonotone(s: real, t: real)
    requires s <= t
    ensures Severity(Weather(s)) <= Severity(Weather(t))
  {
  }

  /** Each built-in preset is described by the state of its own rank. */
  lemma PresetsDescribeThemselves()
    ensures forall i :: 0 <= i < |DefaultPresets| ==> Severity(Weather(DefaultPresets[i].values.stormIntensity)) == i
  {
  }

  // ---------------------------------------------------------------------------
  // The ocean's settings objects

  /** The ocean-wide settings the controller writes. */
  class OceanSettings {
    var windSpeed: real
    var windAngle: real
    var waveChopyFactor: real
    var foamIntensity: real
    var foamDecay: real
    var swell: real

    constructor ()
      ensures windSpeed == 0.0 && windAngle == 0.0 && waveChopyFactor == 0.0
      ensures foamIntensity == 0.0 && foamDecay == 0.0 && swell == 0.0
    {
      windSpeed, windAngle, waveChopyFactor := 0.0, 0.0, 0.0;
      foamIntensity, foamDecay, swell := 0.0, 0.0, 0.0;
    }
  }

  /** One wave cascade's settings; the controller writes its length scale. */
  class CascadeSettings {
    var lengthScale: int

    constructor (lengthScale: int)
      ensures this.lengthScale == lengthScale
    {
      this.lengthScale := lengthScale;
    }
  }

  // ---------------------------------------------------------------------------
  // The controller

  class OceanStormController {
    /** The six user controls. */
    var controls: Controls
    var transitionSpeed: real
    var smoothTransitions: bool
    var presets: seq<WeatherPreset>
    /** The smoothed values the ocean is driven by. */
    var target: Controls
    /** The targets last pushed to the ocean. */
    var last: Controls

    /** Whether an ocean generator is attached, and its settings objects
        (each may be missing). */
    var hasGenerator: bool
    var settings: OceanSettings?
    var smallCascade: CascadeSettings?
    var mediumCascade: CascadeSettings?
    var largeCascade: CascadeSettings?
    /** How many times the generator has been asked to rebuild. */
    var rebuildRequests: nat

    /** The three cascades are distinct objects. */
    ghost predicate Valid()
      reads this
    {
      (smallCascade != null && mediumCascade != null ==> smallCascade != mediumCascade)
      && (smallCascade != null && largeCascade != null ==> smallCascade != largeCascade)
      && (mediumCascade != null && largeCascade != null ==> mediumCascade != largeCascade)
    }

    /** The links to the generator and the rebuild count. */
    ghost function Wiring(): (bool, OceanSettings?, CascadeSettings?, CascadeSettings?, CascadeSettings?)
      reads this
    {
      (hasGenerator, settings, smallCascade, mediumCascade, largeCascade)
    }

    /** The smoothing configuration and the preset table. */
    ghost function Setup(): (real, bool, seq<WeatherPreset>)
      reads this
    {
      (transitionSpeed, smoothTransitions, presets)
    }

    /** Whether applying the targets reaches an ocean at all. */
    predicate Reachable()
      reads this
    {
      hasGenerator && settings != null
    }

    /** The ocean's settings objects that are present. */
    ghost function OceanObjects(): set<object>
      reads this
    {
      (if settings != null then {settings} else {})
      + (if smallCascade != null then {smallCascade} else {})
      + (if mediumCascade != null then {mediumCascade} else {})
      + (if largeCascade != null then {largeCascade} else {})
    }

    /** The ocean's settings show the mapping of the current targets. */
    ghost predicate ShowsTargets()
      reads this, settings, smallCascade, mediumCascade, largeCascade
    {
      settings != null
      && settings.windSpeed == WindSpeed(target)
      && settings.windAngle == target.windDirection
      && settings.waveChopyFactor == WaveChopyFactor(target)
      && settings.foamIntensity == FoamIntensity(target)
      && settings.foamDecay == FoamDecay(target)
      && settings.swell == Swell(target)
      && (smallCascade != null ==> smallCascade.lengthScale == SmallScale(target))
      && (mediumCascade != null ==> mediumCascade.lengthScale == MediumScale(target))
      && (largeCascade != null ==> largeCascade.lengthScale == LargeScale(target))
    }

    constructor (hasGenerator: bool, settings: OceanSettings?,
                 smallCascade: CascadeSettings?, mediumCascade: CascadeSettings?, largeCascade: CascadeSettings?)
      requires smallCascade != null && mediumCascade != null ==> smallCascade != mediumCascade
      requires smallCascade != null && largeCascade != null ==> smallCascade != largeCascade
      requires mediumCascade != null && largeCascade != null ==> mediumCascade != largeCascade
      ensures Valid()
      ensures controls == DefaultControls && presets == DefaultPresets
      ensures transitionSpeed == 1.0 && smoothTransitions
      ensures target == Controls(0.0, 0.0, 0.0, 0.0, 0.0, 0.0) && last == target
      ensures Wiring() == (hasGenerator, settings, smallCascade, mediumCascade, largeCascade)
      ensures rebuildRequests == 0
    {
      controls := DefaultControls;
      transitionSpeed := 1.0;
      smoothTransitions := true;
      presets := DefaultPresets;
      target := Controls(0.0, 0.0, 0.0, 0.0, 0.0, 0.0);
      last := target;
      this.hasGenerator := hasGenerator;
      this.settings := settings;
      this.smallCascade := smallCascade;
      this.mediumCascade := mediumCascade;
      this.largeCascade := largeCascade;
      rebuildRequests := 0;
    }

    // -- the public setters ---------------------------------------------------

    method SetStormIntensity(intensity: real)
      modifies this
      ensures controls == old(controls).(stormIntensity := Clamp(intensity, 0.0, 100.0))
      ensures 0.0 <= controls.stormIntensity <= 100.0
      ensures PercentsInRange(old(controls)) ==> PercentsInRange(controls)
      ensures target == old(target) && last == old(last) && rebuildRequests == old(rebuildRequests)
      ensures Setup() == old(Setup()) && Wiring() == old(Wiring())
    {
      controls := controls.(stormIntensity := Clamp(intensity, 0.0, 100.0));
    }

    method SetWaveSize(size: real)
      modifies this
      ensures controls == old(controls).(waveSize := Clamp(size, 0.0, 100.0))
      ensures 0.0 <= controls.waveSize <= 100.0
      ensures PercentsInRange(old(controls)) ==> PercentsInRange(controls)
      ensures target == old(target) && last == old(last) && rebuildRequests == old(rebuildRequests)
      ensures Setup() == old(Setup()) && Wiring() == old(Wiring())
    {
      controls := controls.(waveSize := Clamp(size, 0.0, 100.0));
    }

    method SetWindStrength(strength: real)
      modifies this
      ensures controls == old(controls).(windStrength := Clamp(strength, 0.0, 100.0))
      ensures 0.0 <= controls.windStrength <= 100.0
      ensures PercentsInRange(old(controls)) ==> PercentsInRange(controls)
      ensures target == old(target) && last == old(last) && rebuildRequests == old(rebuildRequests)
      ensures Setup() == old(Setup()) && Wiring() == old(Wiring())
    {
      controls := controls.(windStrength := Clamp(strength, 0.0, 100.0));
    }

    /** The direction is reduced with the float remainder, which keeps the
        sign of its argument: the result lies in (-360, 360), not in [0, 360). */
    method SetWindDirection(direction: real)
      modifies this
      ensures controls == old(controls).(windDirection := FMod(direction, 360.0))
      ensures 0.0 <= direction ==> 0.0 <= controls.windDirection < 360.0
      ensures direction <= 0.0 ==> -360.0 < controls.windDirection <= 0.0
      ensures exists k: int :: controls.windDirection == direction + WholeTurns(k)
      ensures PercentsInRange(old(controls)) ==> PercentsInRange(controls)
      ensures target == old(target) && last == old(last) && rebuildRequests == old(rebuildRequests)
      ensures Setup() == old(Setup()) && Wiring() == old(Wiring())
    {
      var r := FMod(direction, 360.0);
      var q := Truncate(direction / 360.0);
      assert r == direction + WholeTurns(-q);
      controls := controls.(windDirection := r);
    }

    // -- presets --------------------------------------------------------------

    method ApplyPreset(preset: WeatherPreset)
      modifies this
      ensures controls == preset.values
      ensures target == old(target) && last == old(last) && rebuildRequests == old(rebuildRequests)
      ensures Setup() == old(Setup()) && Wiring() == old(Wiring())
    {
      controls := preset.values;
    }

    method ApplyPresetByIndex(index: int)
      modifies this
      ensures controls == if 0 <= index < |presets| then presets[index].values else old(controls)
      ensures target == old(target) && last == old(last) && rebuildRequests == old(rebuildRequests)
      ensures Setup() == old(Setup()) && Wiring() == old(Wiring())
    {
      if 0 <= index < |presets| {
        ApplyPreset(presets[index]);
      }
    }

    /** Applies the first preset called `presetName`; with no such preset nothing changes. */
    method ApplyPresetNamed(presetName: string)
      modifies this
      ensures controls == match FirstPreset(presets, presetName)
        case Some(i) => presets[i].values
        case None => old(controls)
      ensures target == old(target) && last == old(last) && rebuildRequests == old(rebuildRequests)
      ensures Setup() == old(Setup()) && Wiring() == old(Wiring())
    {
      var i := 0;
      while i < |presets|
        invariant 0 <= i <= |presets|
        invariant forall j :: 0 <= j < i ==> presets[j].name != presetName
        invariant controls == old(controls)
        invariant target == old(target) && last == old(last) && rebuildRequests == old(rebuildRequests)
        invariant Setup() == old(Setup()) && Wiring() == old(Wiring())
      {
        if presets[i].name == presetName {
          ApplyPreset(presets[i]);
          assert FirstPreset(presets, presetName) == Some(i);
          return;
        }
        i := i + 1;
      }
    }

    method SetCalm()
      modifies this
      ensures controls == match FirstPreset(presets, "Calm")
        case Some(i) => presets[i].values
        case None => old(controls)
      ensures presets == DefaultPresets ==> controls == DefaultPresets[0].values
      ensures target == old(target) && last == old(last) && rebuildRequests == old(rebuildRequests)
      ensures Setup() == old(Setup()) && Wiring() == old(Wiring())
    {
      QuickPresetsByName();
      ApplyPresetNamed("Calm");
    }

    method SetModerate()
      modifies this
      ensures controls == match FirstPreset(presets, "Moderate")
        case Some(i) => presets[i].values
        case None => old(controls)
      ensures presets == DefaultPresets ==> controls == DefaultPresets[2].values
      ensures target == old(target) && last == old(last) && rebuildRequests == old(rebuildRequests)
      ensures Setup() == old(Setup()) && Wiring() == old(Wiring())
    {
      QuickPresetsByName();
      ApplyPresetNamed("Moderate");
    }

    method SetStorm()
      modifies this
      ensures controls == match FirstPreset(presets, "Storm")
        case Some(i) => presets[i].values
        case None => old(controls)
      ensures presets == DefaultPresets ==> controls == DefaultPresets[4].values
      ensures target == old(target) && last == old(last) && rebuildRequests == old(rebuildRequests)
      ensures Setup() == old(Setup()) && Wiring() == old(Wiring())
    {
      QuickPresetsByName();
      ApplyPresetNamed("Storm");
    }

    method SetHurricane()
      modifies this
      ensures controls == match FirstPreset(presets, "Hurricane")
        case Some(i) => presets[i].values
        case None => old(controls)
      ensures presets == DefaultPresets ==> controls == DefaultPresets[5].values
      ensures target == old(target) && last == old(last) && rebuildRequests == old(rebuildRequests)
      ensures Setup() == old(Setup()) && Wiring() == old(Wiring())
    {
      QuickPresetsByName();
      ApplyPresetNamed("Hurricane");
    }

    // -- pushing the targets to the ocean ---------------------------------------

    /** Writes the mapped targets into the ocean's settings and cascades and
        asks the generator to rebuild; without a generator or its settings it
        does nothing, and a missing cascade is skipped. */
    method ApplyStormSettings()
      requires Valid()
      modifies this, OceanObjects()
      ensures Reachable() ==> ShowsTargets() && rebuildRequests == old(rebuildRequests) + 1
      ensures !Reachable() ==> rebuildRequests == old(rebuildRequests)
      ensures !Reachable() ==> unchanged(old(OceanObjects()))
      ensures controls == old(controls) && target == old(target) && last == old(last)
      ensures Setup() == old(Setup()) && Wiring() == old(Wiring())
    {
      if !hasGenerator {
        return;
      }
      if settings == null {
        return;
      }
      settings.windSpeed := WindSpeed(target);
      settings.windAngle := target.windDirection;
      settings.waveChopyFactor := WaveChopyFactor(target);
      settings.foamIntensity := FoamIntensity(target);
      settings.foamDecay := FoamDecay(target);
      settings.swell := Swell(target);
      UpdateCascadeScales();
      ForceOceanUpdate();
    }

    /** Writes each present cascade's length scale. */
    method UpdateCascadeScales()
      requires Valid()
      modifies smallCascade, mediumCascade, largeCascade
      ensures smallCascade != null ==> smallCascade.lengthScale == SmallScale(target)
      ensures mediumCascade != null ==> mediumCascade.lengthScale == MediumScale(target)
      ensures largeCascade != null ==> largeCascade.lengthScale == LargeScale(target)
    {
      if smallCascade != null {
        smallCascade.lengthScale := SmallScale(target);
      }
      if mediumCascade != null {
        mediumCascade.lengthScale := MediumScale(target);
      }
      if largeCascade != null {
        largeCascade.lengthScale := LargeScale(target);
      }
    }

    /** Asks an attached generator to rebuild its cascades. */
    method ForceOceanUpdate()
      modifies this
      ensures rebuildRequests == old(rebuildRequests) + (if hasGenerator then 1 else 0)
      ensures controls == old(controls) && target == old(target) && last == old(last)
      ensures Setup() == old(Setup()) && Wiring() == old(Wiring())
    {
      if hasGenerator {
        rebuildRequests := rebuildRequests + 1;
      }
    }

    // -- the frame loop ---------------------------------------------------------

    /** Start: the targets jump to the controls, which are then applied. */
    method Start()
      requires Valid()
      modifies this, OceanObjects()
      ensures target == controls && controls == old(controls) && last == old(last)
      ensures Reachable() ==> ShowsTargets() && rebuildRequests == old(rebuildRequests) + 1
      ensures !Reachable() ==> rebuildRequests == old(rebuildRequests)
      ensures !Reachable() ==> unchanged(old(OceanObjects()))
      ensures Setup() == old(Setup()) && Wiring() == old(Wiring())
    {
      target := controls;
      ApplyStormSettings();
    }

    /** One smoothing step; `frameTime` is the frame's duration. */
    method UpdateTransitions(frameTime: real)
      modifies this
      ensures target == Transition(old(target), controls, SmoothingStep(frameTime, transitionSpeed))
      ensures controls == old(controls) && last == old(last) && rebuildRequests == old(rebuildRequests)
      ensures Setup() == old(Setup()) && Wiring() == old(Wiring())
    {
      var dt := SmoothingStep(frameTime, transitionSpeed);
      var next := Transition(target, controls, dt);
      target := next;
    }

    /** The frame update: move the targets (smoothly, or straight to the
        controls), and only if some target moved away from the cached values
        apply them and cache them. */
    method Update(frameTime: real)
      requires Valid()
      modifies this, OceanObjects()
      ensures target == if smoothTransitions then Transition(old(target), controls, SmoothingStep(frameTime, transitionSpeed))
                        else controls
      ensures Changed(target, old(last)) ==> last == target
      ensures Changed(target, old(last)) && Reachable() ==> ShowsTargets() && rebuildRequests == old(rebuildRequests) + 1
      ensures !(Changed(target, old(last)) && Reachable()) ==> rebuildRequests == old(rebuildRequests)
      ensures !Changed(target, old(last)) ==> last == old(last) && unchanged(old(OceanObjects()))
      ensures !Reachable() ==> unchanged(old(OceanObjects()))
      ensures controls == old(controls) && Setup() == old(Setup()) && Wiring() == old(Wiring())
    {
      if smoothTransitions {
        UpdateTransitions(frameTime);
      } else {
        target := controls;
      }
      if HasStormSettingsChanged() {
        ApplyStormSettings();
        CacheLastValues();
      }
    }

    /** Called when a control is edited: without smoothing the targets follow
        at once and are applied. */
    method OnStormParameterChanged()
      requires Valid()
      modifies this, OceanObjects()
      ensures smoothTransitions ==> target == old(target) && unchanged(old(OceanObjects()))
      ensures !smoothTransitions ==> target == controls
      ensures !smoothTransitions && Reachable() ==> ShowsTargets() && rebuildRequests == old(rebuildRequests) + 1
      ensures !(!smoothTransitions && Reachable()) ==> rebuildRequests == old(rebuildRequests)
      ensures !Reachable() ==> unchanged(old(OceanObjects()))
      ensures controls == old(controls) && last == old(last)
      ensures Setup() == old(Setup()) && Wiring() == old(Wiring())
    {
      if !smoothTransitions {
        target := controls;
        ApplyStormSettings();
      }
    }

    predicate HasStormSettingsChanged()
      reads this
    {
      Changed(target, last)
    }

    method CacheLastValues()
      modifies this
      ensures last == target && !HasStormSettingsChanged()
      ensures controls == old(controls) && target == old(target) && rebuildRequests == old(rebuildRequests)
      ensures Setup() == old(Setup()) && Wiring() == old(Wiring())
    {
      last := target;
      ChangedOnlyWhenDifferent(target, last);
    }

    /** The weather state the debug description names. */
    function CurrentWeather(): WeatherState
      reads this
    {
      Weather(target.stormIntensity)
    }
  }
}
