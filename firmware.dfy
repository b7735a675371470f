/** The session glue of src/main.cpp: starting and resetting an experiment,
    the result snapshot served to the browser, the closed-form simulators and
    the calibration of the rest offsets. HTTP arguments arrive already parsed
    as parameters; the math library's `sin`, `cos` and `sqrt` are parameters. */
module Firmware {
  import Sound
  import opened Experiments

  /** Number of raw frames averaged by the calibration. */
  const CalibrationSamples: nat := 200

  // ------------------------------------------------------------------
  // handleStart
  // ------------------------------------------------------------------

  /** The request arguments `handleStart` reads, as parsed by `toFloat`/`toInt`. */
  datatype StartArgs = StartArgs(mass: real, angle: real, length: real, oscillations: int, distance: real)

  /** A new session together with the sound cues issued while producing it. */
  datatype Outcome = Outcome(session: Session, events: seq<Sound.Event>)

  /** The type names used by the start request and the result snapshot. */
  function TypeName(k: ExperimentType): (name: string)
    ensures |name| >= 4
    ensures name == "none" <==> k == None
  {
    match k
    case None => "none"
    case Projectile => "projectile"
    case Pendulum => "pendulum"
    case FreeFall => "freefall"
    case Friction => "friction"
  }

  /** Only the kind, the state and the chosen experiment's user parameters
      may differ: nothing is cleared or recalibrated. */
  predicate KeepsWorkingVars(s: Session, r: Session) {
    && r.proj == s.proj.(mass := r.proj.mass, angleDeg := r.proj.angleDeg)
    && r.pend == s.pend.(stringLength := r.pend.stringLength, oscillationsToMeasure := r.pend.oscillationsToMeasure)
    && r.fall == s.fall.(distance := r.fall.distance)
    && r.fric == s.fric
  }

  /** `handleStart` for the request type `name`. */
  function Started(s: Session, name: string, args: StartArgs): (r: Outcome)
    ensures KeepsWorkingVars(s, r.session)
    ensures name == "projectile" ==>
              && r.session.kind == Projectile && r.session.state == Waiting
              && r.session.proj.mass == args.mass && r.session.proj.angleDeg == args.angle
              && r.session.pend == s.pend && r.session.fall == s.fall
              && r.events == [Sound.ExperimentStartProjectile]
    ensures name == "pendulum" ==>
              && r.session.kind == Pendulum && r.session.state == Waiting
              && r.session.pend.stringLength == args.length
              && r.session.pend.oscillationsToMeasure == args.oscillations
              && r.session.proj == s.proj && r.session.fall == s.fall
              && r.events == [Sound.ExperimentStartPendulum]
    ensures name == "freefall" ==>
              && r.session.kind == FreeFall && r.session.state == Waiting
              && r.session.fall.distance == args.distance
              && r.session.proj == s.proj && r.session.pend == s.pend
              && r.events == [Sound.ExperimentStartFreefall]
    ensures name == "friction" ==>
              && r.session == s.(kind := Friction, state := Running)
              && r.events == [Sound.ExperimentStartFriction]
    ensures name !in {"projectile", "pendulum", "freefall", "friction"} ==> r == Outcome(s, [])
  {
    if name == "projectile" then
      Outcome(s.(kind := Projectile, state := Waiting, proj := s.proj.(mass := args.mass, angleDeg := args.angle)),
              [Sound.ExperimentStartProjectile])
    else if name == "pendulum" then
      Outcome(s.(kind := Pendulum, state := Waiting,
                 pend := s.pend.(stringLength := args.length, oscillationsToMeasure := args.oscillations)),
              [Sound.ExperimentStartPendulum])
    else if name == "freefall" then
      Outcome(s.(kind := FreeFall, state := Waiting, fall := s.fall.(distance := args.distance)),
              [Sound.ExperimentStartFreefall])
    else if name == "friction" then
      Outcome(s.(kind := Friction, state := Running), [Sound.ExperimentStartFriction])
    else
      Outcome(s, [])
  }

  /** Starting by the name the snapshot reports selects that very experiment,
      and only friction skips the waiting phase. */
  lemma StartByReportedName(s: Session, k: ExperimentType, args: StartArgs)
    requires k != None
    ensures Started(s, TypeName(k), args).session.kind == k
    ensures Started(s, TypeName(k), args).session.state == (if k == Friction then Running else Waiting)
    ensures |Started(s, TypeName(k), args).events| == 1
  {
  }

  /** The request `handleStart` with the globals held by `lab`. */
  method HandleStart(lab: Lab, name: string, args: StartArgs) returns (events: seq<Sound.Event>)
    modifies lab
    ensures Outcome(lab.Snapshot(), events) == Started(old(lab.Snapshot()), name, args)
  {
    events := [];
    if name == "projectile" {
      lab.kind := Projectile;
      lab.state := Waiting;
      lab.proj := lab.proj.(mass := args.mass);
      lab.proj := lab.proj.(angleDeg := args.angle);
      events := [Sound.ExperimentStartProjectile];
    } else if name == "pendulum" {
      lab.kind := Pendulum;
      lab.state := Waiting;
      lab.pend := lab.pend.(stringLength := args.length);
      lab.pend := lab.pend.(oscillationsToMeasure := args.oscillations);
      events := [Sound.ExperimentStartPendulum];
    } else if name == "freefall" {
      lab.kind := FreeFall;
      lab.state := Waiting;
      lab.fall := lab.fall.(distance := args.distance);
      events := [Sound.ExperimentStartFreefall];
    } else if name == "friction" {
      lab.kind := Friction;
      lab.state := Running;
      events := [Sound.ExperimentStartFriction];
    }
  }

  // ------------------------------------------------------------------
  // resetInternalState
  // ------------------------------------------------------------------

  /** `resetInternalState`: no experiment, idle, working variables cleared. */
  function ResetInternal(s: Session): (r: Session)
    ensures r.kind == None && r.state == Idle
    ensures ProjectileCleared(r.proj) && PendulumCleared(r.pend) && FreefallCleared(r.fall) && FrictionCleared(r.fric)
    ensures r.proj.g0 == s.proj.g0 && r.pend.g0y == s.pend.g0y && r.fric.g0x == s.fric.g0x && r.fric.g0z == s.fric.g0z
    ensures r.proj.mass == s.proj.mass && r.proj.angleDeg == s.proj.angleDeg
    ensures r.pend.stringLength == s.pend.stringLength && r.pend.oscillationsToMeasure == s.pend.oscillationsToMeasure
    ensures r.fall.distance == s.fall.distance
  {
    Cleared(s.(kind := None, state := Idle))
  }

  /** Resetting twice is the same as resetting once. */
  lemma ResetIdempotent(s: Session)
    ensures ResetInternal(ResetInternal(s)) == ResetInternal(s)
  {
  }

  /** After a reset every controller ignores its input. */
  lemma ResetSilencesControllers(s: Session, f: Accel, now: nat, atan2: (real, real) -> real, tan: real -> real)
    ensures var r := ResetInternal(s);
            && ProjectileStep(r.state, r.proj, f, now) == Tick(Idle, r.proj, [])
            && PendulumStep(r.state, r.pend, f, now) == Tick(Idle, r.pend, [])
            && FreefallStep(r.state, r.fall, f, now) == Tick(Idle, r.fall, [])
            && FrictionStep(r.state, r.fric, f, atan2, tan) == Tick(Idle, r.fric, [])
  {
  }

  method ResetInternalState(lab: Lab)
    modifies lab
    ensures lab.Snapshot() == ResetInternal(old(lab.Snapshot()))
  {
    lab.kind := None;
    lab.state := Idle;
    lab.ResetExperimentData();
  }

  // ------------------------------------------------------------------
  // handleResults
  // ------------------------------------------------------------------

  /** The status string: finished, measuring, or anything else. */
  function StatusName(st: ExperimentState): (name: string)
    ensures name == "done" <==> st == Done
    ensures name == "running" <==> st == Running
    ensures name == "waiting" <==> st == Idle || st == Waiting
  {
    assert "done"[0] != "waiting"[0] && "running"[0] != "waiting"[0];
    match st
    case Done => "done"
    case Running => "running"
    case Idle | Waiting => "waiting"
  }

  /** Two states report the same status exactly when they are equal or both
      precede the measurement. */
  lemma StatusNames(a: ExperimentState, b: ExperimentState)
    ensures StatusName(a) == StatusName(b) <==> a == b || (Rank(a) <= 1 && Rank(b) <= 1)
  {
    if StatusName(a) == StatusName(b) && a != b {
      assert StatusName(a)[0] == StatusName(b)[0];
    }
  }

  /** Type names are distinct, so the snapshot identifies the experiment. */
  lemma TypeNamesDistinct(a: ExperimentType, b: ExperimentType)
    ensures TypeName(a) == TypeName(b) <==> a == b
  {
    if TypeName(a) == TypeName(b) {
      assert TypeName(a)[0] == TypeName(b)[0];
      assert TypeName(a)[1] == TypeName(b)[1];
    }
  }

  /** Flight time, peak height and range of an ideal projectile. */
  datatype Trajectory = Trajectory(time: real, maxHeight: real, range: real)

  /** The back-solved trajectory from launch speed and angle (in degrees). */
  function TrajectoryOf(v0: real, angleDeg: real, sin: real -> real, cos: real -> real): (t: Trajectory)
    ensures var v0y := v0 * sin(angleDeg * Pi / 180.0);
            && t.time * GravityConst == 2.0 * v0y
            && t.range == v0 * cos(angleDeg * Pi / 180.0) * t.time
  {
    var angleRad := angleDeg * Pi / 180.0;
    var v0y := v0 * sin(angleRad);
    var v0x := v0 * cos(angleRad);
    var time := (2.0 * v0y) / GravityConst;
    Trajectory(time, (v0y * v0y) / (2.0 * GravityConst), v0x * time)
  }

  /** The peak height is the one reached at half the flight time, g T^2 / 8. */
  lemma PeakAtHalfTime(v0: real, angleDeg: real, sin: real -> real, cos: real -> real)
    ensures var t := TrajectoryOf(v0, angleDeg, sin, cos);
            8.0 * t.maxHeight == GravityConst * t.time * t.time
  {
    var t := TrajectoryOf(v0, angleDeg, sin, cos);
    var v0y := v0 * sin(angleDeg * Pi / 180.0);
    var g := GravityConst;
    assert t.time == (2.0 * v0y) / g;
    assert g * t.time * t.time == (4.0 * v0y * v0y) / g by {
      assert g * t.time == 2.0 * v0y;
      assert g * t.time * t.time == 2.0 * v0y * t.time;
    }
  }

  /** The fields the snapshot adds after `type` and `status`. */
  datatype Fields =
    | NoFields
    | ProjectileReport(v0: real, angle: real, flight: Trajectory)
    | PendulumCount(count: int)
    | PendulumReport(length: real, period: real, freq: real, g: real)
    | FreefallReport(time: real, g: real)
    | FrictionAngle(angle: real)
    | FrictionReport(angle: real, mu: real)

  datatype Report = Report(typeName: string, status: string, fields: Fields)

  /** `handleResults`: what is reported for each pair of type and state. */
  function Results(s: Session, sin: real -> real, cos: real -> real): (r: Report)
    ensures r.typeName == TypeName(s.kind) && r.status == StatusName(s.state)
    ensures r.fields != NoFields ==> s.state == Running || s.state == Done
    ensures r.fields.ProjectileReport? <==> s.kind == Projectile && s.state == Done
    ensures r.fields.PendulumCount? <==> s.kind == Pendulum && s.state == Running
    ensures r.fields.PendulumReport? <==> s.kind == Pendulum && s.state == Done
    ensures r.fields.FreefallReport? <==> s.kind == FreeFall && s.state == Done
    ensures r.fields.FrictionAngle? <==> s.kind == Friction && s.state == Running
    ensures r.fields.FrictionReport? <==> s.kind == Friction && s.state == Done
    ensures r.fields.ProjectileReport? ==>
              r.fields.v0 == s.proj.v0 && r.fields.angle == s.proj.angleDeg
              && r.fields.flight == TrajectoryOf(s.proj.v0, s.proj.angleDeg, sin, cos)
    ensures r.fields.PendulumCount? ==> r.fields.count == s.pend.oscillationCount
    ensures r.fields.PendulumReport? ==>
              r.fields == PendulumReport(s.pend.stringLength, s.pend.period, s.pend.frequency, s.pend.gExp)
    ensures r.fields.FreefallReport? ==> r.fields == FreefallReport(s.fall.time, s.fall.gExp)
    ensures r.fields.FrictionAngle? ==> r.fields.angle == s.fric.currentAngle
    ensures r.fields.FrictionReport? ==> r.fields == FrictionReport(s.fric.criticalAngle, s.fric.mu)
  {
    var fields :=
      match s.kind
      case Projectile =>
        if s.state == Done then ProjectileReport(s.proj.v0, s.proj.angleDeg, TrajectoryOf(s.proj.v0, s.proj.angleDeg, sin, cos))
        else NoFields
      case Pendulum =>
        if s.state == Running then PendulumCount(s.pend.oscillationCount)
        else if s.state == Done then PendulumReport(s.pend.stringLength, s.pend.period, s.pend.frequency, s.pend.gExp)
        else NoFields
      case FreeFall =>
        if s.state == Done then FreefallReport(s.fall.time, s.fall.gExp) else NoFields
      case Friction =>
        if s.state == Running then FrictionAngle(s.fric.currentAngle)
        else if s.state == Done then FrictionReport(s.fric.criticalAngle, s.fric.mu)
        else NoFields
      case None => NoFields;
    Report(TypeName(s.kind), StatusName(s.state), fields)
  }

  /** A finished pendulum always reports a period, frequency and g that agree
      with each other, whatever the measured timing was. */
  lemma FinishedPendulumReportConsistent(st: ExperimentState, p: PendulumVars, f: Accel, now: nat,
                                         s: Session, sin: real -> real, cos: real -> real)
    requires st == Running && PendulumStep(st, p, f, now).state == Done
    requires s.kind == Pendulum && s.state == Done && s.pend == PendulumStep(st, p, f, now).vars
    ensures var r := Results(s, sin, cos).fields;
            && r.PendulumReport?
            && (r.period <= 0.0 ==> r.freq == 0.0 && r.g == 0.0)
            && (r.period > 0.0 ==> r.freq * r.period == 1.0 && r.g * r.period * r.period == 4.0 * Pi * Pi * r.length)
  {
  }

  // ------------------------------------------------------------------
  // The simulators
  // ------------------------------------------------------------------

  /** The reply of a simulator endpoint: a value, or the 400 "Invalid input". */
  datatype SimReply = InvalidInput | Value(v: real)

  /** `sqrt` behaves as the non-negative square root on non-negative arguments. */
  ghost predicate IsSquareRoot(sqrt: real -> real) {
    forall x :: x >= 0.0 ==> sqrt(x) >= 0.0 && sqrt(x) * sqrt(x) == x
  }

  /** `handleSimProjectileCalc`: the trajectory with no validation of the inputs. */
  function SimProjectile(v0: real, angleDeg: real, sin: real -> real, cos: real -> real): (t: Trajectory)
    ensures t.time * GravityConst == 2.0 * v0 * sin(angleDeg * Pi / 180.0)
    ensures 8.0 * t.maxHeight == GravityConst * t.time * t.time
    ensures t.range == v0 * cos(angleDeg * Pi / 180.0) * t.time
  {
    PeakAtHalfTime(v0, angleDeg, sin, cos);
    TrajectoryOf(v0, angleDeg, sin, cos)
  }

  /** `handleSimPendulumCalc`: the small-angle period 2 pi sqrt(L / g). */
  function SimPendulum(length: real, g: real, sqrt: real -> real): (r: SimReply)
    ensures r == InvalidInput <==> length <= 0.0 || g <= 0.0
  {
    if length <= 0.0 || g <= 0.0 then InvalidInput
    else Value(2.0 * Pi * sqrt(length / g))
  }

  /** The pendulum experiment's formula recovers the g the simulator was given. */
  lemma SimPendulumRoundTrip(length: real, g: real, sqrt: real -> real)
    requires IsSquareRoot(sqrt)
    requires length > 0.0 && g > 0.0
    ensures SimPendulum(length, g, sqrt).Value?
    ensures PendulumG(length, SimPendulum(length, g, sqrt).v) == g
  {
    var q := length / g;
    var root := sqrt(q);
    assert q > 0.0;
    assert root * root == q && root >= 0.0;
    assert root > 0.0;
    var period := 2.0 * Pi * root;
    assert period > 0.0;
    var h := PendulumG(length, period);
    assert h * period * period == 4.0 * Pi * Pi * length;
    assert period * period == 4.0 * Pi * Pi * q by {
      assert period * period == (2.0 * Pi) * (2.0 * Pi) * (root * root);
    }
    assert q * g == length;
    assert h * (4.0 * Pi * Pi * q) == (4.0 * Pi * Pi) * (q * g);
    assert h * q == q * g;
  }

  /** `handleSimFreefallCalc`: the fall time sqrt(2 d / g). */
  function SimFreefall(distance: real, sqrt: real -> real): (r: SimReply)
    ensures r == InvalidInput <==> distance <= 0.0
  {
    if distance <= 0.0 then InvalidInput
    else Value(sqrt((2.0 * distance) / GravityConst))
  }

  /** The free-fall experiment's formula recovers standard gravity from the
      simulated fall time. */
  lemma SimFreefallRoundTrip(distance: real, sqrt: real -> real)
    requires IsSquareRoot(sqrt)
    requires distance > 0.0
    ensures SimFreefall(distance, sqrt).Value?
    ensures SimFreefall(distance, sqrt).v > 0.0
    ensures FreefallG(distance, SimFreefall(distance, sqrt).v) == GravityConst
  {
    var q := (2.0 * distance) / GravityConst;
    var t := sqrt(q);
    assert q > 0.0;
    assert t * t == q && t >= 0.0;
    assert t > 0.0;
    var h := FreefallG(distance, t);
    assert h * t * t == 2.0 * distance;
    assert q * GravityConst == 2.0 * distance;
    assert h * q == GravityConst * q;
  }

  // ------------------------------------------------------------------
  // calibrateIMU
  // ------------------------------------------------------------------

  datatype Axis = X | Y | Z

  function Component(f: Accel, a: Axis): real {
    match a
    case X => f.x
    case Y => f.y
    case Z => f.z
  }

  /** Sum of one axis over the frames, accumulated front to back. */
  function AxisSum(frames: seq<Accel>, a: Axis): real
    decreases |frames|
  {
    if |frames| == 0 then 0.0 else AxisSum(frames[..|frames| - 1], a) + Component(frames[|frames| - 1], a)
  }

  /** The mean of an axis lies between the smallest and largest reading. */
  lemma {:induction false} SumWithinBounds(frames: seq<Accel>, a: Axis, lo: real, hi: real)
    requires forall i :: 0 <= i < |frames| ==> lo <= Component(frames[i], a) <= hi
    ensures (|frames| as real) * lo <= AxisSum(frames, a) <= (|frames| as real) * hi
    decreases |frames|
  {
    if |frames| > 0 {
      var init := frames[..|frames| - 1];
      assert forall i :: 0 <= i < |init| ==> init[i] == frames[i];
      SumWithinBounds(init, a, lo, hi);
    }
  }

  /** `calibrateIMU` applied to the 200 raw frames it reads. */
  function Calibrated(s: Session, frames: seq<Accel>): (r: Session)
    requires |frames| == CalibrationSamples
    ensures r == s.(proj := r.proj, pend := r.pend, fric := r.fric)
    ensures r.proj == s.proj.(g0 := r.proj.g0) && r.pend == s.pend.(g0y := r.pend.g0y)
    ensures r.fric == s.fric.(g0x := r.fric.g0x)
    ensures r.proj.g0 * (CalibrationSamples as real) == AxisSum(frames, Z)
    ensures r.pend.g0y * (CalibrationSamples as real) == AxisSum(frames, Y)
    ensures r.fric.g0x * (CalibrationSamples as real) == AxisSum(frames, X)
  {
    var n := CalibrationSamples as real;
    s.(proj := s.proj.(g0 := AxisSum(frames, Z) / n),
       pend := s.pend.(g0y := AxisSum(frames, Y) / n),
       fric := s.fric.(g0x := AxisSum(frames, X) / n))
  }

  /** Each offset is the mean reading: it lies within the range of that
      axis's readings, and a device held perfectly still yields its reading. */
  lemma OffsetsWithinReadings(s: Session, frames: seq<Accel>, lo: Accel, hi: Accel)
    requires |frames| == CalibrationSamples
    requires forall i :: 0 <= i < |frames| ==> lo.x <= frames[i].x <= hi.x
    requires forall i :: 0 <= i < |frames| ==> lo.y <= frames[i].y <= hi.y
    requires forall i :: 0 <= i < |frames| ==> lo.z <= frames[i].z <= hi.z
    ensures var r := Calibrated(s, frames);
            && lo.z <= r.proj.g0 <= hi.z && lo.y <= r.pend.g0y <= hi.y && lo.x <= r.fric.g0x <= hi.x
  {
    var r := Calibrated(s, frames);
    var n := CalibrationSamples as real;
    SumWithinBounds(frames, X, lo.x, hi.x);
    SumWithinBounds(frames, Y, lo.y, hi.y);
    SumWithinBounds(frames, Z, lo.z, hi.z);
    MeanWithin(r.fric.g0x, n, AxisSum(frames, X), lo.x, hi.x);
    MeanWithin(r.pend.g0y, n, AxisSum(frames, Y), lo.y, hi.y);
    MeanWithin(r.proj.g0, n, AxisSum(frames, Z), lo.z, hi.z);
  }

  /** A mean of sums bounded by n·lo and n·hi lies in [lo, hi]. */
  lemma MeanWithin(m: real, n: real, sum: real, lo: real, hi: real)
    requires n > 0.0 && m * n == sum && n * lo <= sum <= n * hi
    ensures lo <= m <= hi
  {
  }

  /** `calibrateIMU`: accumulates the raw frames in a loop, then stores the
      means as the rest offsets; the Z offset of the friction experiment is
      not touched. */
  method CalibrateImu(lab: Lab, frames: seq<Accel>)
    requires |frames| == CalibrationSamples
    modifies lab
    ensures lab.Snapshot() == Calibrated(old(lab.Snapshot()), frames)
  {
    var azSum := 0.0;
    var aySum := 0.0;
    var axSum := 0.0;
    var i := 0;
    while i < CalibrationSamples
      invariant 0 <= i <= CalibrationSamples
      invariant azSum == AxisSum(frames[..i], Z)
      invariant aySum == AxisSum(frames[..i], Y)
      invariant axSum == AxisSum(frames[..i], X)
    {
      var f := frames[i];
      assert frames[..i + 1][..i] == frames[..i];
      azSum := azSum + f.z;
      aySum := aySum + f.y;
      axSum := axSum + f.x;
      i := i + 1;
    }
    assert frames[..i] == frames;
    lab.proj := lab.proj.(g0 := azSum / (CalibrationSamples as real));
    lab.pend := lab.pend.(g0y := aySum / (CalibrationSamples as real));
    lab.fric := lab.fric.(g0x := axSum / (CalibrationSamples as real));
  }
}
