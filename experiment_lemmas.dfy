/** Properties of the experiment controllers over a run of ticks
    (src/experiments.cpp): forward-only progress, the projectile landing
    debounce, pendulum half-cycle counting and the spacing of peak cues. */
module ExperimentProofs {
  import Sound
  import opened Experiments

  /** One tick's input: the filtered frame and the clock reading. */
  datatype Sample = Sample(frame: Accel, at: nat)

  // ------------------------------------------------------------------
  // Projectile
  // ------------------------------------------------------------------

  /** `projectileController` called once per sample, in order; the events of
      all ticks are concatenated. The state never moves backwards, and an idle
      or finished experiment ignores every sample. */
  function RunProjectile(st: ExperimentState, p: ProjectileVars, samples: seq<Sample>): (r: Tick<ProjectileVars>)
    ensures Rank(st) <= Rank(r.state)
    ensures st == Idle || st == Done ==> r == Tick(st, p, [])
    ensures st != Idle ==> r.state != Idle
    ensures r.vars.g0 == p.g0 && r.vars.mass == p.mass && r.vars.angleDeg == p.angleDeg
    decreases |samples|
  {
    if |samples| == 0 then Tick(st, p, [])
    else
      var t := ProjectileStep(st, p, samples[0].frame, samples[0].at);
      var rest := RunProjectile(t.state, t.vars, samples[1..]);
      Tick(rest.state, rest.vars, t.events + rest.events)
  }

  /** Every sample lies inside the landing band around the calibrated rest value. */
  predicate AllQuiet(g0: real, samples: seq<Sample>) {
    forall i :: 0 <= i < |samples| ==> Abs(samples[i].frame.z - g0) < ProjLandingDetectThreshold
  }

  /** During free flight, consecutive quiet samples are counted one by one and
      the experiment finishes on exactly the twentieth, not before. */
  lemma {:induction false} LandingDebounce(p: ProjectileVars, samples: seq<Sample>)
    requires p.freefallStarted && 0 <= p.landingCount < ProjLandingSamplesRequired
    requires p.landingCount + |samples| <= ProjLandingSamplesRequired
    requires AllQuiet(p.g0, samples)
    ensures RunProjectile(Running, p, samples).vars.landingCount == p.landingCount + |samples|
    ensures RunProjectile(Running, p, samples).state == Done <==> p.landingCount + |samples| == ProjLandingSamplesRequired
    decreases |samples|
  {
    if |samples| > 0 {
      var t := ProjectileStep(Running, p, samples[0].frame, samples[0].at);
      assert QuietLanding(t.vars, samples[0].frame);
      assert t.vars.landingCount == p.landingCount + 1;
      if t.state == Done {
        assert samples[1..] == [];
      } else {
        assert AllQuiet(t.vars.g0, samples[1..]) by {
          forall i | 0 <= i < |samples[1..]|
            ensures Abs(samples[1..][i].frame.z - t.vars.g0) < ProjLandingDetectThreshold
          {
            assert samples[1..][i] == samples[i + 1];
          }
        }
        LandingDebounce(t.vars, samples[1..]);
      }
    }
  }

  /** A single sample outside the band during flight restarts the count. */
  lemma NoisySampleRestartsCount(p: ProjectileVars, s: Sample)
    requires p.freefallStarted && p.landingCount < ProjLandingSamplesRequired
    requires Abs(s.frame.z - p.g0) >= ProjLandingDetectThreshold
    ensures RunProjectile(Running, p, [s]) == Tick(Running, ProjectileStep(Running, p, s.frame, s.at).vars, [])
    ensures RunProjectile(Running, p, [s]).vars.landingCount == 0
  {
    var t := ProjectileStep(Running, p, s.frame, s.at);
    assert t.vars.freefallStarted && t.vars.g0 == p.g0;
    assert !QuietLanding(t.vars, s.frame);
    assert RunProjectile(Running, p, [s]) == Tick(t.state, t.vars, t.events + []);
  }

  // ------------------------------------------------------------------
  // Pendulum
  // ------------------------------------------------------------------

  /** `pendulumController` called once per sample, in order. */
  function RunPendulum(st: ExperimentState, p: PendulumVars, samples: seq<Sample>): (r: Tick<PendulumVars>)
    ensures Rank(st) <= Rank(r.state)
    ensures st == Idle || st == Done ==> r == Tick(st, p, [])
    ensures st != Idle ==> r.state != Idle
    ensures r.vars.g0y == p.g0y && r.vars.oscillationsToMeasure == p.oscillationsToMeasure
    ensures r.vars.stringLength == p.stringLength
    decreases |samples|
  {
    if |samples| == 0 then Tick(st, p, [])
    else
      var t := PendulumStep(st, p, samples[0].frame, samples[0].at);
      var rest := RunPendulum(t.state, t.vars, samples[1..]);
      Tick(rest.state, rest.vars, t.events + rest.events)
  }

  /** Side of the rest position of a sample: above it or not. */
  predicate Above(g0y: real, s: Sample) {
    s.frame.y - g0y > 0.0
  }

  /** The number of half-cycles in `samples`: changes of side, starting from `side`. */
  function SideChanges(side: bool, g0y: real, samples: seq<Sample>): (n: nat)
    ensures n <= |samples|
    decreases |samples|
  {
    if |samples| == 0 then 0
    else
      var next := Above(g0y, samples[0]);
      (if next != side then 1 else 0) + SideChanges(next, g0y, samples[1..])
  }

  /** While the target is not reached, the count grows by exactly the number
      of half-cycles seen and the measurement keeps running. */
  lemma {:induction false} HalfCycleCounting(p: PendulumVars, samples: seq<Sample>)
    requires p.oscillationCount + SideChanges(p.isSwinging, p.g0y, samples) < 2 * p.oscillationsToMeasure
    ensures RunPendulum(Running, p, samples).state == Running
    ensures RunPendulum(Running, p, samples).vars.oscillationCount
            == p.oscillationCount + SideChanges(p.isSwinging, p.g0y, samples)
    decreases |samples|
  {
    if |samples| > 0 {
      var t := PendulumStep(Running, p, samples[0].frame, samples[0].at);
      var c := if Crosses(p, samples[0].frame) then 1 else 0;
      assert t.vars.oscillationCount == p.oscillationCount + c;
      assert t.state == Running;
      HalfCycleCounting(t.vars, samples[1..]);
    }
  }

  /** The clock readings at which a peak cue fires during a run. Consecutive
      cues are more than the refractory window apart, and the first is more
      than that after the previous peak, or after clock time 0 when measuring
      has just started (the peak time is reset to 0 then). */
  function PeakTimes(st: ExperimentState, p: PendulumVars, samples: seq<Sample>): (ts: seq<nat>)
    ensures forall k :: 0 <= k < |ts| - 1 ==> ts[k + 1] - ts[k] > PeakRefractoryMs
    ensures |ts| > 0 && st == Running ==> ts[0] - p.lastPeakTime > PeakRefractoryMs
    ensures |ts| > 0 && st == Waiting ==> ts[0] > PeakRefractoryMs
    ensures st == Idle || st == Done ==> ts == []
    decreases |samples|
  {
    if |samples| == 0 || st == Idle || st == Done then []
    else
      var t := PendulumStep(st, p, samples[0].frame, samples[0].at);
      var rest := PeakTimes(t.state, t.vars, samples[1..]);
      if Sound.PendulumPeak in t.events then [samples[0].at] + rest else rest
  }

  /** `PeakTimes` lists exactly the ticks whose events include a peak cue. */
  lemma {:induction false} PeakTimesCount(st: ExperimentState, p: PendulumVars, samples: seq<Sample>)
    ensures |PeakTimes(st, p, samples)| == multiset(RunPendulum(st, p, samples).events)[Sound.PendulumPeak]
    decreases |samples|
  {
    if |samples| > 0 && st != Idle && st != Done {
      var t := PendulumStep(st, p, samples[0].frame, samples[0].at);
      PeakTimesCount(t.state, t.vars, samples[1..]);
      var rest := RunPendulum(t.state, t.vars, samples[1..]);
      assert multiset(t.events + rest.events) == multiset(t.events) + multiset(rest.events);
      assert multiset(t.events)[Sound.PendulumPeak] == (if Sound.PendulumPeak in t.events then 1 else 0) by {
        PeakEventsAtMostOne(st, p, samples[0]);
      }
    }
  }

  /** A tick issues at most one peak cue. */
  lemma PeakEventsAtMostOne(st: ExperimentState, p: PendulumVars, s: Sample)
    ensures multiset(PendulumStep(st, p, s.frame, s.at).events)[Sound.PendulumPeak] <= 1
  {
  }
}
