/** The four experiment controllers and their session variables
    (src/experiments.cpp, src/experiments.hpp). Each controller consumes one
    filtered acceleration frame (in g) per tick, compares it with thresholds,
    updates its working variables and may move the shared state forward. The
    Sound cues a tick triggers are returned, in the order the source issues them. */
module Experiments {
  import Sound

  datatype ExperimentType = None | Projectile | Pendulum | FreeFall | Friction

  datatype ExperimentState = Idle | Waiting | Running | Done

  /** Position of a state in the lifecycle Idle, Waiting, Running, Done. */
  function Rank(s: ExperimentState): nat {
    match s
    case Idle => 0
    case Waiting => 1
    case Running => 2
    case Done => 3
  }

  /** The only moves a controller tick may make. */
  predicate Advances(s: ExperimentState, t: ExperimentState) {
    t == s || (s == Waiting && t == Running) || (s == Running && t == Done)
  }

  /** One filtered accelerometer frame, in units of standard gravity. */
  datatype Accel = Accel(x: real, y: real, z: real)

  function Abs(v: real): real {
    if v < 0.0 then -v else v
  }

  const GravityConst: real := 9.80665
  const Pi: real := 3.1415926535897932384626433832795

  const ProjThrowDetectThreshold: real := 2.5
  const ProjFreefallDetectThreshold: real := 1.2
  const ProjLandingDetectThreshold: real := 0.2
  const ProjLandingSamplesRequired: int := 20

  const PendSwingThreshold: real := 0.2
  /** Minimum time between two pendulum peak cues, in ms. */
  const PeakRefractoryMs: int := 250

  const FreefallDetectThreshold: real := 0.3
  const FreefallImpactThreshold: real := 3.5
  /** Fall times at or below this (in s) are reported as 0. */
  const MinFallTime: real := 0.05

  const FricSlipThreshold: real := 0.5

  /** The `proj_*` globals, with the function-static `last_update_us`. */
  datatype ProjectileVars = ProjectileVars(
    g0: real, mass: real, velocity: real, height: real, timeUs: nat,
    v0: real, t: real, hMax: real, gExp: real, fMax: real, angleDeg: real,
    freefallStarted: bool, landingCount: int, gSum: real, gSamples: int,
    lastUpdateUs: nat)

  /** The `pend_*` globals, with the function-static peak detector
      (`last_smoothed_g_y`, `was_increasing`, `last_peak_time`). */
  datatype PendulumVars = PendulumVars(
    period: real, frequency: real, stringLength: real, gExp: real,
    oscillationsToMeasure: int, oscillationCount: int, startTime: nat,
    isSwinging: bool, g0y: real,
    lastSmoothed: real, wasIncreasing: bool, lastPeakTime: nat)

  /** The `freefall_*` globals. */
  datatype FreefallVars = FreefallVars(distance: real, time: real, gExp: real, startTime: nat)

  /** The `fric_*` globals. */
  datatype FrictionVars = FrictionVars(
    g0x: real, g0z: real, currentAngle: real, criticalAngle: real, mu: real, zeroAngle: real)

  /** The whole experiment session: every global of src/experiments.cpp. */
  datatype Session = Session(
    kind: ExperimentType, state: ExperimentState,
    proj: ProjectileVars, pend: PendulumVars, fall: FreefallVars, fric: FrictionVars)

  /** The globals' initial values. */
  const PowerOn: Session := Session(
    None, Idle,
    ProjectileVars(0.0, 0.5, 0.0, 0.0, 0, 0.0, 0.0, 0.0, 0.0, 0.0, 45.0, false, 0, 0.0, 0, 0),
    PendulumVars(0.0, 0.0, 0.5, 0.0, 10, 0, 0, false, 0.0, 0.0, false, 0),
    FreefallVars(1.0, 0.0, 0.0, 0),
    FrictionVars(0.0, 0.0, 0.0, 0.0, 0.0, 0.0))

  /** What one controller tick produces. */
  datatype Tick<V> = Tick(state: ExperimentState, vars: V, events: seq<Sound.Event>)

  // ------------------------------------------------------------------
  // resetExperimentData
  // ------------------------------------------------------------------

  /** Working and result variables are zero; calibration and user parameters
      are not mentioned. */
  predicate ProjectileCleared(p: ProjectileVars) {
    && p.velocity == 0.0 && p.height == 0.0 && p.v0 == 0.0 && p.t == 0.0 && p.hMax == 0.0
    && p.gExp == 0.0 && p.fMax == 0.0 && !p.freefallStarted && p.landingCount == 0
    && p.gSum == 0.0 && p.gSamples == 0
  }

  predicate PendulumCleared(p: PendulumVars) {
    p.period == 0.0 && p.frequency == 0.0 && p.oscillationCount == 0 && !p.isSwinging && p.gExp == 0.0
  }

  predicate FreefallCleared(p: FreefallVars) {
    p.time == 0.0 && p.gExp == 0.0
  }

  predicate FrictionCleared(p: FrictionVars) {
    p.currentAngle == 0.0 && p.criticalAngle == 0.0 && p.mu == 0.0
  }

  /** `resetExperimentData`: clears working and result variables, keeps the
      calibration offsets, the user parameters, the state and the type. */
  function Cleared(s: Session): (r: Session)
    ensures r.kind == s.kind && r.state == s.state
    ensures ProjectileCleared(r.proj) && PendulumCleared(r.pend) && FreefallCleared(r.fall) && FrictionCleared(r.fric)
    ensures r.proj.g0 == s.proj.g0 && r.proj.mass == s.proj.mass && r.proj.angleDeg == s.proj.angleDeg
    ensures r.pend.g0y == s.pend.g0y && r.pend.stringLength == s.pend.stringLength
    ensures r.pend.oscillationsToMeasure == s.pend.oscillationsToMeasure
    ensures r.fall.distance == s.fall.distance
    ensures r.fric.g0x == s.fric.g0x && r.fric.g0z == s.fric.g0z
    ensures r.proj.timeUs == s.proj.timeUs && r.proj.lastUpdateUs == s.proj.lastUpdateUs
    ensures r.pend.startTime == s.pend.startTime && r.pend.lastSmoothed == s.pend.lastSmoothed
    ensures r.pend.wasIncreasing == s.pend.wasIncreasing && r.pend.lastPeakTime == s.pend.lastPeakTime
    ensures r.fall.startTime == s.fall.startTime && r.fric.zeroAngle == s.fric.zeroAngle
    ensures (ProjectileCleared(s.proj) && PendulumCleared(s.pend) && FreefallCleared(s.fall)
             && FrictionCleared(s.fric)) ==> r == s
  {
    s.(proj := s.proj.(velocity := 0.0, height := 0.0, v0 := 0.0, t := 0.0, hMax := 0.0, gExp := 0.0,
                       fMax := 0.0, freefallStarted := false, landingCount := 0, gSum := 0.0, gSamples := 0),
       pend := s.pend.(period := 0.0, frequency := 0.0, oscillationCount := 0, isSwinging := false, gExp := 0.0),
       fall := s.fall.(time := 0.0, gExp := 0.0),
       fric := s.fric.(currentAngle := 0.0, criticalAngle := 0.0, mu := 0.0))
  }

  // ------------------------------------------------------------------
  // Projectile
  // ------------------------------------------------------------------

  /** Experimental g from the free-flight samples: mean |net g| in m/s^2, or 0
      when no sample was taken. */
  function FlightG(gSum: real, gSamples: int): (g: real)
    ensures gSamples <= 0 ==> g == 0.0
    ensures gSamples > 0 ==> g * (gSamples as real) == gSum * GravityConst
  {
    if gSamples > 0 then (gSum / (gSamples as real)) * GravityConst else 0.0
  }

  /** A landing sample: free fall has begun and the net acceleration is small. */
  predicate QuietLanding(p: ProjectileVars, f: Accel) {
    p.freefallStarted && Abs(f.z - p.g0) < ProjLandingDetectThreshold
  }

  /** `projectileController` for one tick at `nowUs` (microseconds). */
  function ProjectileStep(st: ExperimentState, p: ProjectileVars, f: Accel, nowUs: nat): (r: Tick<ProjectileVars>)
    ensures st == Idle || st == Done ==> r == Tick(st, p, [])
    ensures Advances(st, r.state)
    ensures r.vars.g0 == p.g0 && r.vars.mass == p.mass && r.vars.angleDeg == p.angleDeg
    ensures p.freefallStarted ==> r.vars.freefallStarted
    ensures st == Waiting ==> (r.state == Running <==> (f.z - p.g0) * GravityConst > ProjThrowDetectThreshold * GravityConst)
    ensures st == Waiting && r.state == Running ==> r.vars == p.(lastUpdateUs := nowUs) && r.events == [Sound.ProjectileThrow]
    ensures st == Waiting && r.state == Waiting ==> r.vars == p && r.events == []
    ensures st == Running ==>
              var dt := ((nowUs - p.lastUpdateUs) as real) / 1000000.0;
              && r.vars.lastUpdateUs == nowUs
              && r.vars.velocity == p.velocity + (f.z - p.g0) * GravityConst * dt
              && (r.vars.freefallStarted <==> p.freefallStarted || Abs(f.z - p.g0) < ProjFreefallDetectThreshold)
    ensures st == Running ==>
              var net := f.z - p.g0;
              var dt := ((nowUs - p.lastUpdateUs) as real) / 1000000.0;
              var q := p.(lastUpdateUs := nowUs);
              var b := if p.freefallStarted then Flight(q, net, dt) else Boost(q, net, dt, nowUs);
              r.vars.(landingCount := b.landingCount, t := b.t, gExp := b.gExp) == b
    ensures st == Running && !p.freefallStarted && r.vars.freefallStarted ==>
              r.vars.v0 == r.vars.velocity && r.vars.timeUs == nowUs
    ensures st == Running && (p.freefallStarted || !r.vars.freefallStarted) ==>
              r.vars.v0 == p.v0 && r.vars.timeUs == p.timeUs
    ensures st == Running ==>
              r.events == (if !p.freefallStarted && r.vars.freefallStarted then [Sound.ProjectileFreefall] else [])
                          + (if r.state == Done then [Sound.ExperimentDone] else [])
    ensures st == Running ==>
              r.vars.landingCount == (if QuietLanding(r.vars, f) then p.landingCount + 1 else 0)
    ensures st == Running ==> (r.state == Done <==> r.vars.landingCount >= ProjLandingSamplesRequired)
    ensures st == Running && r.state == Running ==> r.vars.t == p.t && r.vars.gExp == p.gExp
    ensures st == Running && r.state == Done ==>
              && r.vars.gExp == FlightG(r.vars.gSum, r.vars.gSamples)
              && r.vars.t == ((nowUs - r.vars.timeUs) as real) / 1000000.0
  {
    if st == Idle || st == Done then Tick(st, p, [])
    else
      var net := f.z - p.g0;
      var vertical := net * GravityConst;
      if st == Waiting then
        if vertical > ProjThrowDetectThreshold * GravityConst then
          Tick(Running, p.(lastUpdateUs := nowUs), [Sound.ProjectileThrow])
        else
          Tick(Waiting, p, [])
      else
        var dt := ((nowUs - p.lastUpdateUs) as real) / 1000000.0;
        var p1 := p.(lastUpdateUs := nowUs);
        var p2 := if !p1.freefallStarted then Boost(p1, net, dt, nowUs) else Flight(p1, net, dt);
        var ev := if !p1.freefallStarted && p2.freefallStarted then [Sound.ProjectileFreefall] else [];
        var p3 := p2.(landingCount := if QuietLanding(p2, f) then p2.landingCount + 1 else 0);
        if p3.landingCount >= ProjLandingSamplesRequired then
          Tick(Done, Landed(p3, nowUs), ev + [Sound.ExperimentDone])
        else
          Tick(Running, p3, ev)
  }

  /** The launch phase of a running tick: integrate velocity, track the peak
      force, and enter free fall (capturing V0 and its start time) once the
      net acceleration drops below the free-fall threshold. */
  function Boost(p: ProjectileVars, net: real, dt: real, nowUs: nat): (r: ProjectileVars)
    ensures r.g0 == p.g0 && r.mass == p.mass && r.angleDeg == p.angleDeg
    ensures r.landingCount == p.landingCount && r.gSum == p.gSum && r.gSamples == p.gSamples
    ensures r.lastUpdateUs == p.lastUpdateUs && r.t == p.t && r.gExp == p.gExp
    ensures r.velocity == p.velocity + net * GravityConst * dt
    ensures var force := p.mass * Abs(net * GravityConst);
            r.fMax == (if force > p.fMax then force else p.fMax)
    ensures r.freefallStarted <==> p.freefallStarted || Abs(net) < ProjFreefallDetectThreshold
    ensures Abs(net) < ProjFreefallDetectThreshold ==>
              r.v0 == r.velocity && r.timeUs == nowUs && r.height == 0.0 && r.hMax == 0.0
    ensures Abs(net) >= ProjFreefallDetectThreshold ==>
              r.v0 == p.v0 && r.timeUs == p.timeUs && r.height == p.height && r.hMax == p.hMax
  {
    var vertical := net * GravityConst;
    var boosted := p.(velocity := p.velocity + vertical * dt);
    var force := boosted.mass * Abs(vertical);
    var peaked := if force > boosted.fMax then boosted.(fMax := force) else boosted;
    if Abs(net) < ProjFreefallDetectThreshold then
      peaked.(freefallStarted := true, v0 := peaked.velocity, timeUs := nowUs, height := 0.0, hMax := 0.0)
    else
      peaked
  }

  /** The free-flight phase of a running tick: integrate velocity and height,
      track the peak height, accumulate |net g| for the experimental g. */
  function Flight(p: ProjectileVars, net: real, dt: real): (r: ProjectileVars)
    ensures r.g0 == p.g0 && r.mass == p.mass && r.angleDeg == p.angleDeg
    ensures r.freefallStarted == p.freefallStarted && r.landingCount == p.landingCount
    ensures r.lastUpdateUs == p.lastUpdateUs && r.t == p.t && r.gExp == p.gExp && r.fMax == p.fMax
    ensures r.v0 == p.v0 && r.timeUs == p.timeUs
    ensures r.gSamples == p.gSamples + 1 && r.gSum == p.gSum + Abs(net)
    ensures r.velocity == p.velocity + net * GravityConst * dt
    ensures r.height == p.height + r.velocity * dt
    ensures r.hMax == (if r.height > p.hMax then r.height else p.hMax)
  {
    var v := p.velocity + (net * GravityConst) * dt;
    var h := p.height + v * dt;
    p.(velocity := v, height := h, hMax := if h > p.hMax then h else p.hMax,
       gSum := p.gSum + Abs(net), gSamples := p.gSamples + 1)
  }

  /** Results fixed on landing: flight time and experimental g. */
  function Landed(p: ProjectileVars, nowUs: nat): (r: ProjectileVars)
    ensures r.t * 1000000.0 == (nowUs - p.timeUs) as real
    ensures r.gExp == FlightG(p.gSum, p.gSamples)
    ensures r.(t := p.t, gExp := p.gExp) == p
  {
    p.(t := ((nowUs - p.timeUs) as real) / 1000000.0, gExp := FlightG(p.gSum, p.gSamples))
  }

  // ------------------------------------------------------------------
  // Pendulum
  // ------------------------------------------------------------------

  /** Exponential smoothing of the Y deviation used by the peak detector. */
  function Smoothed(current: real, last: real): real {
    current * 0.4 + last * 0.6
  }

  /** A slope reversal of the smoothed signal beyond the swing threshold:
      a maximum above it or a minimum below its negation. */
  predicate Reversal(wasIncreasing: bool, isIncreasing: bool, smoothed: real) {
    || (wasIncreasing && !isIncreasing && smoothed > PendSwingThreshold)
    || (!wasIncreasing && isIncreasing && smoothed < -PendSwingThreshold)
  }

  /** A peak cue fires on this tick: a reversal, outside the refractory window. */
  predicate PeakFires(p: PendulumVars, f: Accel, nowMs: nat) {
    var s := Smoothed(f.y - p.g0y, p.lastSmoothed);
    nowMs - p.lastPeakTime > PeakRefractoryMs && Reversal(p.wasIncreasing, s > p.lastSmoothed, s)
  }

  /** A half-cycle ends on this tick: the sign of the deviation changes. */
  predicate Crosses(p: PendulumVars, f: Accel) {
    (f.y - p.g0y > 0.0) != p.isSwinging
  }

  /** Period from the total time of `target` full oscillations. The source
      divides by `target` unguarded; for 0 the model reports 0. */
  function Period(totalTime: real, target: int): (period: real)
    ensures target != 0 ==> period * (target as real) == totalTime
    ensures target == 0 ==> period == 0.0
  {
    if target == 0 then 0.0 else totalTime / (target as real)
  }

  /** Frequency from the period, 0 when the period is not positive. */
  function FrequencyOf(period: real): (freq: real)
    ensures period <= 0.0 ==> freq == 0.0
    ensures period > 0.0 ==> freq > 0.0 && freq * period == 1.0
  {
    if period > 0.0 then 1.0 / period else 0.0
  }

  /** g = 4 pi^2 L / T^2, 0 when the period is not positive. */
  function PendulumG(length: real, period: real): (g: real)
    ensures period <= 0.0 ==> g == 0.0
    ensures period > 0.0 ==> g * period * period == 4.0 * Pi * Pi * length
  {
    if period > 0.0 then (4.0 * Pi * Pi * length) / (period * period) else 0.0
  }

  /** Period, frequency and g are consistent, degrading to zero together. */
  predicate PendulumResults(p: PendulumVars) {
    p.frequency == FrequencyOf(p.period) && p.gExp == PendulumG(p.stringLength, p.period)
  }

  /** `pendulumController` for one tick at `nowMs` (milliseconds). */
  function PendulumStep(st: ExperimentState, p: PendulumVars, f: Accel, nowMs: nat): (r: Tick<PendulumVars>)
    ensures st == Idle || st == Done ==> r == Tick(st, p, [])
    ensures Advances(st, r.state)
    ensures r.vars.g0y == p.g0y && r.vars.stringLength == p.stringLength
    ensures r.vars.oscillationsToMeasure == p.oscillationsToMeasure
    ensures st == Waiting ==> (r.state == Running <==> Abs(f.y - p.g0y) > PendSwingThreshold)
    ensures st == Waiting && r.state == Running ==>
              r.vars == p.(lastSmoothed := 0.0, wasIncreasing := false, lastPeakTime := 0)
              && r.events == [Sound.PendulumMeasureStart]
    ensures st == Waiting && r.state == Waiting ==> r.vars == p && r.events == []
    ensures st == Running ==>
              && r.vars.lastSmoothed == Smoothed(f.y - p.g0y, p.lastSmoothed)
              && r.vars.wasIncreasing == (r.vars.lastSmoothed > p.lastSmoothed)
    ensures st == Running ==>
              r.events == (if PeakFires(p, f, nowMs) then [Sound.PendulumPeak] else [])
                          + (if r.state == Done then [Sound.ExperimentDone] else [])
    ensures st == Running ==> r.vars.isSwinging == (f.y - p.g0y > 0.0)
    ensures st == Running ==> (Sound.PendulumPeak in r.events <==> PeakFires(p, f, nowMs))
    ensures st == Running ==> r.vars.lastPeakTime == (if PeakFires(p, f, nowMs) then nowMs else p.lastPeakTime)
    ensures st == Running ==>
              r.vars.oscillationCount == p.oscillationCount + (if Crosses(p, f) then 1 else 0)
    ensures st == Running && Crosses(p, f) && p.oscillationCount == 0 ==> r.vars.startTime == nowMs
    ensures st == Running && !(Crosses(p, f) && p.oscillationCount == 0) ==> r.vars.startTime == p.startTime
    ensures st == Running ==>
              (r.state == Done <==> Crosses(p, f) && r.vars.oscillationCount >= 2 * p.oscillationsToMeasure)
    ensures st == Running && r.state == Running ==>
              r.vars.period == p.period && r.vars.frequency == p.frequency && r.vars.gExp == p.gExp
    ensures st == Running && r.state == Done ==>
              && r.vars.period == Period(((nowMs - r.vars.startTime) as real) / 1000.0, p.oscillationsToMeasure)
              && PendulumResults(r.vars)
  {
    if st == Idle || st == Done then Tick(st, p, [])
    else
      var current := f.y - p.g0y;
      if st == Waiting then
        if Abs(current) > PendSwingThreshold then
          Tick(Running, p.(lastSmoothed := 0.0, wasIncreasing := false, lastPeakTime := 0),
               [Sound.PendulumMeasureStart])
        else
          Tick(Waiting, p, [])
      else
        var ev := if PeakFires(p, f, nowMs) then [Sound.PendulumPeak] else [];
        var p1 := Tracked(p, current, nowMs);
        if !Crosses(p, f) then
          Tick(Running, p1, ev)
        else
          var p2 := p1.(startTime := if p.oscillationCount == 0 then nowMs else p.startTime,
                        oscillationCount := p.oscillationCount + 1);
          if p2.oscillationCount >= p2.oscillationsToMeasure * 2 then
            Tick(Done, Finished(p2, nowMs), ev + [Sound.ExperimentDone])
          else
            Tick(Running, p2, ev)
  }

  /** The peak detector's part of a running tick: smooth the deviation
      `current`, stamp a peak outside the refractory window, remember the
      slope and the side of the rest position. */
  function Tracked(p: PendulumVars, current: real, nowMs: nat): (r: PendulumVars)
    ensures r.g0y == p.g0y && r.stringLength == p.stringLength && r.oscillationsToMeasure == p.oscillationsToMeasure
    ensures r.oscillationCount == p.oscillationCount && r.startTime == p.startTime
    ensures r.period == p.period && r.frequency == p.frequency && r.gExp == p.gExp
    ensures r.isSwinging <==> current > 0.0
    ensures r.lastSmoothed == Smoothed(current, p.lastSmoothed)
    ensures r.wasIncreasing == (r.lastSmoothed > p.lastSmoothed)
    ensures r.lastPeakTime ==
              if nowMs - p.lastPeakTime > PeakRefractoryMs && Reversal(p.wasIncreasing, r.wasIncreasing, r.lastSmoothed)
              then nowMs else p.lastPeakTime
  {
    var smoothed := Smoothed(current, p.lastSmoothed);
    var isIncreasing := smoothed > p.lastSmoothed;
    var peak := nowMs - p.lastPeakTime > PeakRefractoryMs && Reversal(p.wasIncreasing, isIncreasing, smoothed);
    p.(lastPeakTime := if peak then nowMs else p.lastPeakTime,
       wasIncreasing := isIncreasing, lastSmoothed := smoothed, isSwinging := current > 0.0)
  }

  /** Results fixed when the last half-cycle ends at `nowMs`. */
  function Finished(p: PendulumVars, nowMs: nat): (r: PendulumVars)
    ensures r.period == Period(((nowMs - p.startTime) as real) / 1000.0, p.oscillationsToMeasure)
    ensures PendulumResults(r)
    ensures r == p.(period := r.period, frequency := r.frequency, gExp := r.gExp)
  {
    var period := Period(((nowMs - p.startTime) as real) / 1000.0, p.oscillationsToMeasure);
    p.(period := period, frequency := FrequencyOf(period), gExp := PendulumG(p.stringLength, period))
  }

  // ------------------------------------------------------------------
  // Free fall
  // ------------------------------------------------------------------

  function SquaredMagnitude(f: Accel): real {
    f.x * f.x + f.y * f.y + f.z * f.z
  }

  /** |a| < limit for a non-negative limit, without the square root. */
  predicate MagnitudeBelow(f: Accel, limit: real) {
    SquaredMagnitude(f) < limit * limit
  }

  /** |a| > limit for a non-negative limit, without the square root. */
  predicate MagnitudeAbove(f: Accel, limit: real) {
    SquaredMagnitude(f) > limit * limit
  }

  /** g = 2 d / t^2 for a fall of `distance` metres lasting `time` seconds. */
  function FreefallG(distance: real, time: real): (g: real)
    requires time != 0.0
    ensures g * time * time == 2.0 * distance
  {
    (2.0 * distance) / (time * time)
  }

  /** `freefallController` for one tick at `nowMs` (milliseconds). */
  function FreefallStep(st: ExperimentState, p: FreefallVars, f: Accel, nowMs: nat): (r: Tick<FreefallVars>)
    ensures st == Idle || st == Done ==> r == Tick(st, p, [])
    ensures Advances(st, r.state)
    ensures r.vars.distance == p.distance
    ensures st == Waiting ==> (r.state == Running <==> MagnitudeBelow(f, FreefallDetectThreshold))
    ensures st == Waiting && r.state == Running ==> r.vars == p.(startTime := nowMs) && r.events == [Sound.FreefallStart]
    ensures r.state == st ==> r.vars == p && r.events == []
    ensures st == Running ==> (r.state == Done <==> MagnitudeAbove(f, FreefallImpactThreshold))
    ensures st == Running && r.state == Done ==>
              var elapsed := ((nowMs - p.startTime) as real) / 1000.0;
              && (elapsed > MinFallTime ==> r.vars.time == elapsed && r.vars.gExp * elapsed * elapsed == 2.0 * p.distance)
              && (elapsed <= MinFallTime ==> r.vars.time == 0.0 && r.vars.gExp == 0.0)
              && r.vars.startTime == p.startTime
              && r.events == [Sound.FreefallImpact]
  {
    if st == Idle || st == Done then Tick(st, p, [])
    else if st == Waiting then
      if MagnitudeBelow(f, FreefallDetectThreshold) then
        Tick(Running, p.(startTime := nowMs), [Sound.FreefallStart])
      else
        Tick(Waiting, p, [])
    else if MagnitudeAbove(f, FreefallImpactThreshold) then
      var elapsed := ((nowMs - p.startTime) as real) / 1000.0;
      if elapsed > MinFallTime then
        Tick(Done, p.(time := elapsed, gExp := FreefallG(p.distance, elapsed)), [Sound.FreefallImpact])
      else
        Tick(Done, p.(time := 0.0, gExp := 0.0), [Sound.FreefallImpact])
    else
      Tick(Running, p, [])
  }

  // ------------------------------------------------------------------
  // Friction
  // ------------------------------------------------------------------

  /** Tilt angle in degrees from the X and Z axes, `atan2(-x, z)`. */
  function Pitch(f: Accel, atan2: (real, real) -> real): real {
    atan2(-f.x, f.z) * 180.0 / Pi
  }

  /** `frictionController` for one tick; `atan2` and `tan` are the math library's. */
  function FrictionStep(st: ExperimentState, p: FrictionVars, f: Accel,
                        atan2: (real, real) -> real, tan: real -> real): (r: Tick<FrictionVars>)
    ensures st == Idle || st == Done ==> r == Tick(st, p, [])
    ensures Advances(st, r.state) && (st == Waiting ==> r.state == Waiting)
    ensures r.vars.g0x == p.g0x && r.vars.g0z == p.g0z && r.vars.zeroAngle == p.zeroAngle
    ensures st == Waiting || st == Running ==> r.vars.currentAngle == Pitch(f, atan2)
    ensures r.state == Done && st != Done <==> st == Running && Abs(f.x - p.g0x) > FricSlipThreshold
    ensures r.state == Done && st != Done ==>
              && r.vars.criticalAngle == r.vars.currentAngle
              && r.vars.mu == tan(r.vars.criticalAngle * Pi / 180.0)
              && r.events == [Sound.FrictionSlip, Sound.ExperimentDone]
    ensures r.state == st ==> r.events == [] && r.vars.criticalAngle == p.criticalAngle && r.vars.mu == p.mu
  {
    if st == Idle || st == Done then Tick(st, p, [])
    else
      var p1 := p.(currentAngle := Pitch(f, atan2));
      if Abs(f.x - p.g0x) > FricSlipThreshold && st == Running then
        Tick(Done, p1.(criticalAngle := p1.currentAngle, mu := tan(p1.currentAngle * Pi / 180.0)),
             [Sound.FrictionSlip, Sound.ExperimentDone])
      else
        Tick(st, p1, [])
  }

  // ------------------------------------------------------------------
  // The globals, updated in place
  // ------------------------------------------------------------------

  /** The session globals of src/experiments.cpp; each controller is a method
      that rewrites them once per tick. */
  class Lab {
    var kind: ExperimentType    // activeExperiment
    var state: ExperimentState  // experimentState
    var proj: ProjectileVars
    var pend: PendulumVars
    var fall: FreefallVars
    var fric: FrictionVars

    function Snapshot(): Session
      reads this
    {
      Session(kind, state, proj, pend, fall, fric)
    }

    constructor ()
      ensures Snapshot() == PowerOn
    {
      kind, state := None, Idle;
      proj := PowerOn.proj;
      pend := PowerOn.pend;
      fall := PowerOn.fall;
      fric := PowerOn.fric;
    }

    method ResetExperimentData()
      modifies this
      ensures Snapshot() == Cleared(old(Snapshot()))
    {
      proj := proj.(velocity := 0.0, height := 0.0, v0 := 0.0, t := 0.0, hMax := 0.0, gExp := 0.0, fMax := 0.0);
      proj := proj.(freefallStarted := false, landingCount := 0, gSum := 0.0, gSamples := 0);
      pend := pend.(period := 0.0, frequency := 0.0, oscillationCount := 0, isSwinging := false, gExp := 0.0);
      fall := fall.(time := 0.0, gExp := 0.0);
      fric := fric.(currentAngle := 0.0, criticalAngle := 0.0, mu := 0.0);
    }

    method ProjectileController(f: Accel, nowUs: nat) returns (events: seq<Sound.Event>)
      modifies this
      ensures Tick(state, proj, events) == ProjectileStep(old(state), old(proj), f, nowUs)
      ensures kind == old(kind) && pend == old(pend) && fall == old(fall) && fric == old(fric)
    {
      events := [];
      if state == Idle || state == Done { return; }
      var netAccelG := f.z - proj.g0;
      var verticalAccel := netAccelG * GravityConst;
      if state == Waiting {
        if verticalAccel > ProjThrowDetectThreshold * GravityConst {
          state := Running;
          proj := proj.(lastUpdateUs := nowUs);
          events := [Sound.ProjectileThrow];
        }
        return;
      }
      var dt := ((nowUs - proj.lastUpdateUs) as real) / 1000000.0;
      proj := proj.(lastUpdateUs := nowUs);
      if !proj.freefallStarted {
        var began := Launch(netAccelG, dt, nowUs);
        if began {
          events := events + [Sound.ProjectileFreefall];
        }
      } else {
        Fly(netAccelG, dt);
      }
      if proj.freefallStarted && Abs(netAccelG) < ProjLandingDetectThreshold {
        proj := proj.(landingCount := proj.landingCount + 1);
      } else {
        proj := proj.(landingCount := 0);
      }
      if proj.landingCount >= ProjLandingSamplesRequired {
        state := Done;
        proj := proj.(t := ((nowUs - proj.timeUs) as real) / 1000000.0);
        proj := proj.(gExp := if proj.gSamples > 0 then (proj.gSum / (proj.gSamples as real)) * GravityConst else 0.0);
        events := events + [Sound.ExperimentDone];
      }
    }

    /** The launch branch of a running projectile tick (before free fall). */
    method Launch(netAccelG: real, dt: real, nowUs: nat) returns (began: bool)
      requires !proj.freefallStarted
      modifies this
      ensures proj == Boost(old(proj), netAccelG, dt, nowUs)
      ensures began <==> proj.freefallStarted
      ensures kind == old(kind) && state == old(state) && pend == old(pend) && fall == old(fall) && fric == old(fric)
    {
      var verticalAccel := netAccelG * GravityConst;
      proj := proj.(velocity := proj.velocity + verticalAccel * dt);
      var currentForce := proj.mass * Abs(verticalAccel);
      if currentForce > proj.fMax {
        proj := proj.(fMax := currentForce);
      }
      began := false;
      if Abs(netAccelG) < ProjFreefallDetectThreshold {
        proj := proj.(freefallStarted := true, v0 := proj.velocity, timeUs := nowUs);
        proj := proj.(height := 0.0, hMax := 0.0);
        began := true;
      }
    }

    /** The free-flight branch of a running projectile tick. */
    method Fly(netAccelG: real, dt: real)
      modifies this
      ensures proj == Flight(old(proj), netAccelG, dt)
      ensures kind == old(kind) && state == old(state) && pend == old(pend) && fall == old(fall) && fric == old(fric)
    {
      proj := proj.(velocity := proj.velocity + (netAccelG * GravityConst) * dt);
      proj := proj.(height := proj.height + proj.velocity * dt);
      if proj.height > proj.hMax {
        proj := proj.(hMax := proj.height);
      }
      proj := proj.(gSum := proj.gSum + Abs(netAccelG));
      proj := proj.(gSamples := proj.gSamples + 1);
    }

    method PendulumController(f: Accel, nowMs: nat) returns (events: seq<Sound.Event>)
      modifies this
      ensures Tick(state, pend, events) == PendulumStep(old(state), old(pend), f, nowMs)
      ensures kind == old(kind) && proj == old(proj) && fall == old(fall) && fric == old(fric)
    {
      events := [];
      if state == Idle || state == Done { return; }
      var currentGY := f.y - pend.g0y;
      if state == Waiting {
        if Abs(currentGY) > PendSwingThreshold {
          state := Running;
          pend := pend.(lastSmoothed := 0.0, wasIncreasing := false, lastPeakTime := 0);
          events := [Sound.PendulumMeasureStart];
        }
        return;
      }
      var previousState := pend.isSwinging;
      var peak := TrackPeak(currentGY, nowMs);
      if peak {
        events := events + [Sound.PendulumPeak];
      }
      if previousState != pend.isSwinging {
        if pend.oscillationCount == 0 {
          pend := pend.(startTime := nowMs);
        }
        pend := pend.(oscillationCount := pend.oscillationCount + 1);
        if pend.oscillationCount >= pend.oscillationsToMeasure * 2 {
          FinishPendulum(nowMs);
          state := Done;
          events := events + [Sound.ExperimentDone];
        }
      }
    }

    /** Smoothing, peak detection and the side of the rest position, in place. */
    method TrackPeak(currentGY: real, nowMs: nat) returns (peak: bool)
      modifies this
      ensures pend == Tracked(old(pend), currentGY, nowMs)
      ensures peak <==> pend.lastPeakTime == nowMs && nowMs - old(pend).lastPeakTime > PeakRefractoryMs
      ensures kind == old(kind) && state == old(state) && proj == old(proj) && fall == old(fall) && fric == old(fric)
    {
      var smoothedGY := (currentGY * 0.4) + (pend.lastSmoothed * 0.6);
      var isIncreasing := smoothedGY > pend.lastSmoothed;
      peak := false;
      if nowMs - pend.lastPeakTime > PeakRefractoryMs {
        if (pend.wasIncreasing && !isIncreasing && smoothedGY > PendSwingThreshold)
           || (!pend.wasIncreasing && isIncreasing && smoothedGY < -PendSwingThreshold) {
          peak := true;
          pend := pend.(lastPeakTime := nowMs);
        }
      }
      pend := pend.(wasIncreasing := isIncreasing, lastSmoothed := smoothedGY);
      pend := pend.(isSwinging := currentGY > 0.0);
    }

    /** Period, frequency and g once the target count is reached. */
    method FinishPendulum(nowMs: nat)
      modifies this
      ensures pend == Finished(old(pend), nowMs)
      ensures kind == old(kind) && state == old(state) && proj == old(proj) && fall == old(fall) && fric == old(fric)
    {
      var totalTime := ((nowMs - pend.startTime) as real) / 1000.0;
      pend := pend.(period := Period(totalTime, pend.oscillationsToMeasure));
      if pend.period > 0.0 {
        pend := pend.(frequency := 1.0 / pend.period);
        pend := pend.(gExp := (4.0 * Pi * Pi * pend.stringLength) / (pend.period * pend.period));
      } else {
        pend := pend.(frequency := 0.0, gExp := 0.0);
      }
    }

    method FreefallController(f: Accel, nowMs: nat) returns (events: seq<Sound.Event>)
      modifies this
      ensures Tick(state, fall, events) == FreefallStep(old(state), old(fall), f, nowMs)
      ensures kind == old(kind) && proj == old(proj) && pend == old(pend) && fric == old(fric)
    {
      events := [];
      if state == Idle || state == Done { return; }
      if state == Waiting {
        if MagnitudeBelow(f, FreefallDetectThreshold) {
          state := Running;
          fall := fall.(startTime := nowMs);
          events := [Sound.FreefallStart];
        }
        return;
      }
      if MagnitudeAbove(f, FreefallImpactThreshold) {
        ghost var before := fall;
        fall := fall.(time := ((nowMs - fall.startTime) as real) / 1000.0);
        if fall.time > MinFallTime {
          fall := fall.(gExp := (2.0 * fall.distance) / (fall.time * fall.time));
        } else {
          fall := fall.(time := 0.0, gExp := 0.0);
        }
        state := Done;
        events := [Sound.FreefallImpact];
        ghost var r := FreefallStep(old(state), before, f, nowMs);
        assert r.vars.time == fall.time && r.vars.gExp == fall.gExp;
      }
    }

    method FrictionController(f: Accel, atan2: (real, real) -> real, tan: real -> real)
      returns (events: seq<Sound.Event>)
      modifies this
      ensures Tick(state, fric, events) == FrictionStep(old(state), old(fric), f, atan2, tan)
      ensures kind == old(kind) && proj == old(proj) && pend == old(pend) && fall == old(fall)
    {
      events := [];
      if state == Idle || state == Done { return; }
      fric := fric.(currentAngle := Pitch(f, atan2));
      if Abs(f.x - fric.g0x) > FricSlipThreshold {
        if state == Running {
          fric := fric.(criticalAngle := fric.currentAngle);
          fric := fric.(mu := tan(fric.criticalAngle * Pi / 180.0));
          state := Done;
          events := [Sound.FrictionSlip, Sound.ExperimentDone];
        }
      }
    }
  }
}
