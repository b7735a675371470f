/** The non-blocking audio feedback sequencer (src/sound.cpp, src/sound.hpp).
    One running cursor over a fixed step table and one sounding tone; the
    speaker itself and `millis()` are outside the model (the time is a parameter). */
module Sound {

  /** The semantic cues of `Sound::Event`. */
  datatype Event =
    | Startup
    | CalibrateStart
    | CalibrateDone
    | ExperimentStartProjectile
    | ExperimentStartPendulum
    | ExperimentStartFreefall
    | ExperimentStartFriction
    | PendulumMeasureStart
    | ProjectileThrow
    | ProjectileFreefall
    | ExperimentDone
    | PendulumPeak
    | FreefallStart
    | FreefallImpact
    | FrictionSlip

  /** One tone of a cue: frequency in Hz, duration and silence after it in ms. */
  datatype SeqStep = SeqStep(freq: int, dur: nat, gap: nat)

  /** The step table of every cue. */
  function MapEvent(e: Event): (steps: seq<SeqStep>)
    ensures 1 <= |steps| <= 3
    ensures forall i :: 0 <= i < |steps| ==> steps[i].freq > 0 && steps[i].dur > 0
    ensures steps[|steps| - 1].gap == 0
  {
    match e
    case Startup => [SeqStep(1000, 120, 40), SeqStep(1300, 120, 40), SeqStep(1600, 180, 0)]
    case CalibrateStart => [SeqStep(900, 140, 50), SeqStep(1100, 140, 0)]
    case CalibrateDone => [SeqStep(1400, 120, 40), SeqStep(1700, 160, 0)]
    case ExperimentStartProjectile => [SeqStep(1200, 100, 40), SeqStep(1500, 100, 40), SeqStep(1800, 140, 0)]
    case ExperimentStartPendulum => [SeqStep(1000, 100, 40), SeqStep(1400, 100, 40), SeqStep(1700, 140, 0)]
    case PendulumMeasureStart => [SeqStep(1500, 160, 50), SeqStep(1800, 100, 0)]
    case ExperimentStartFreefall => [SeqStep(900, 100, 40), SeqStep(1200, 100, 40), SeqStep(1500, 140, 0)]
    case ExperimentStartFriction => [SeqStep(1100, 100, 40), SeqStep(1300, 100, 40), SeqStep(1600, 140, 0)]
    case ProjectileThrow => [SeqStep(1800, 160, 60), SeqStep(2200, 100, 0)]
    case ProjectileFreefall => [SeqStep(1000, 140, 40), SeqStep(1200, 100, 0)]
    case PendulumPeak => [SeqStep(2000, 60, 0)]
    case FreefallStart => [SeqStep(1600, 100, 40), SeqStep(1400, 80, 0)]
    case FreefallImpact => [SeqStep(900, 140, 60), SeqStep(1200, 140, 60), SeqStep(1500, 180, 0)]
    case FrictionSlip => [SeqStep(1100, 140, 60), SeqStep(1400, 140, 60), SeqStep(1700, 180, 0)]
    case ExperimentDone => [SeqStep(800, 140, 70), SeqStep(1000, 140, 70), SeqStep(1200, 200, 0)]
  }

  /** The single sounding tone (`current`). */
  datatype ActiveTone = ActiveTone(freq: int, endMs: nat, active: bool)

  /** The single playback cursor (`seq`); its step count is `|steps|`. */
  datatype RunningSequence = RunningSequence(steps: seq<SeqStep>, index: nat, nextStart: nat, active: bool)

  /** The whole sequencer state. */
  datatype Audio = Audio(cursor: RunningSequence, tone: ActiveTone)

  /** State at power-on: no cursor, no tone. */
  const Silent := Audio(RunningSequence([], 0, 0, false), ActiveTone(0, 0, false))

  /** The cursor never runs past the end of its table. */
  predicate Valid(a: Audio) {
    a.cursor.index <= |a.cursor.steps|
  }

  /** A call of `processSequence` at `now` may start the next step. */
  predicate Eligible(a: Audio, now: nat) {
    a.cursor.active && !a.tone.active && now >= a.cursor.nextStart && a.cursor.index < |a.cursor.steps|
  }

  /** `b` is `a` after starting the cursor's current step at `now`. */
  predicate StartsStep(a: Audio, b: Audio, now: nat)
    requires a.cursor.index < |a.cursor.steps|
  {
    var st := a.cursor.steps[a.cursor.index];
    && b.tone == ActiveTone(st.freq, now + st.dur, true)
    && b.cursor == a.cursor.(index := a.cursor.index + 1, nextStart := now + st.dur + st.gap)
  }

  /** `stopTone`: the tone is silenced once its end time is reached. */
  function Stopped(t: ActiveTone, now: nat): (r: ActiveTone)
    ensures r.freq == t.freq && r.endMs == t.endMs
    ensures r.active <==> t.active && now < t.endMs
  {
    if t.active && now >= t.endMs then t.(active := false) else t
  }

  /** `processSequence`: starts the next step when the cursor is active, no tone
      sounds and the gap has elapsed; retires the cursor past its last step. */
  function Processed(a: Audio, now: nat): (r: Audio)
    ensures r.cursor.steps == a.cursor.steps
    ensures !a.cursor.active || a.tone.active || now < a.cursor.nextStart ==> r == a
    ensures Eligible(a, now) ==> StartsStep(a, r, now)
    ensures !Eligible(a, now) ==> r.tone == a.tone && r.cursor == a.cursor.(active := r.cursor.active)
    ensures a.cursor.active && !r.cursor.active ==>
              a.cursor.index >= |a.cursor.steps| && !a.tone.active && now >= a.cursor.nextStart
    ensures a.cursor.active && !a.tone.active && now >= a.cursor.nextStart && a.cursor.index >= |a.cursor.steps| ==>
              r == a.(cursor := a.cursor.(active := false))
    ensures Valid(a) ==> Valid(r)
  {
    if !a.cursor.active then a
    else if a.tone.active then a
    else if now < a.cursor.nextStart then a
    else if a.cursor.index >= |a.cursor.steps| then a.(cursor := a.cursor.(active := false))
    else
      var st := a.cursor.steps[a.cursor.index];
      var tone := ActiveTone(st.freq, now + st.dur, true);
      Audio(a.cursor.(nextStart := tone.endMs + st.gap, index := a.cursor.index + 1), tone)
  }

  /** `Sound::update`: stop an expired tone, then advance the cursor. */
  function Updated(a: Audio, now: nat): (r: Audio)
    ensures r.cursor.steps == a.cursor.steps
    ensures a.tone.active && now < a.tone.endMs ==> r == a
    ensures Eligible(a.(tone := Stopped(a.tone, now)), now) ==> StartsStep(a, r, now)
    ensures (a.tone.active && now >= a.tone.endMs && a.cursor.active && now >= a.cursor.nextStart
             && a.cursor.index < |a.cursor.steps|) ==> StartsStep(a, r, now)
    ensures Valid(a) ==> Valid(r)
  {
    Processed(a.(tone := Stopped(a.tone, now)), now)
  }

  /** `Sound::playTone`: a non-positive frequency or duration is ignored;
      otherwise the one tone is replaced, the cursor is left alone. */
  function Played(a: Audio, freq: int, durationMs: int, now: nat): (r: Audio)
    ensures freq <= 0 || durationMs <= 0 ==> r == a
    ensures freq > 0 && durationMs > 0 ==>
              r.cursor == a.cursor && r.tone == ActiveTone(freq, now + durationMs, true)
  {
    if freq <= 0 || durationMs <= 0 then a
    else a.(tone := ActiveTone(freq, now + durationMs, true))
  }

  /** `startSequence` guarded as in `trigger`: an empty table changes nothing,
      otherwise the cursor is replaced by a fresh one at step 0. */
  function Installed(a: Audio, steps: seq<SeqStep>): (r: Audio)
    ensures |steps| == 0 ==> r == a
    ensures |steps| > 0 ==> r.cursor == RunningSequence(steps, 0, 0, true)
    ensures r.tone == a.tone
    ensures Valid(a) ==> Valid(r)
  {
    if |steps| == 0 then a
    else a.(cursor := RunningSequence(steps, 0, 0, true))
  }

  /** `Sound::trigger`: pre-empts whatever cursor is installed; the sounding
      tone keeps sounding. */
  function Triggered(a: Audio, e: Event): (r: Audio)
    ensures r.cursor == RunningSequence(MapEvent(e), 0, 0, true)
    ensures r.tone == a.tone
    ensures Valid(r)
  {
    Installed(a, MapEvent(e))
  }

  /** Several `trigger` calls in a row, as one controller tick issues them. */
  function TriggeredAll(a: Audio, events: seq<Event>): Audio
    decreases |events|
  {
    if events == [] then a else TriggeredAll(Triggered(a, events[0]), events[1..])
  }

  /** Triggers do not queue: after several, only the last one's table is installed. */
  lemma {:induction false} LastTriggerWins(a: Audio, events: seq<Event>)
    requires |events| > 0
    ensures TriggeredAll(a, events) == Triggered(a, events[|events| - 1])
    decreases |events|
  {
    var b := Triggered(a, events[0]);
    if |events| == 1 {
      assert TriggeredAll(b, events[1..]) == b;
    } else {
      LastTriggerWins(b, events[1..]);
      assert Triggered(b, events[|events| - 1]) == Triggered(a, events[|events| - 1]);
    }
  }

  /** The sequencer after one `update` per tick at the given times. */
  function Run(a: Audio, times: seq<nat>): Audio
    decreases |times|
  {
    if times == [] then a else Run(Updated(a, times[0]), times[1..])
  }

  /** A step started during a run: its index in the table and its start time. */
  datatype StepStart = StepStart(index: nat, at: nat)

  /** The steps started during a run, in order. */
  function Starts(a: Audio, times: seq<nat>): seq<StepStart>
    decreases |times|
  {
    if times == [] then []
    else
      var b := Updated(a, times[0]);
      (if b.cursor.index != a.cursor.index then [StepStart(a.cursor.index, times[0])] else [])
        + Starts(b, times[1..])
  }

  /** `y` is the step after `x` in `steps`, started no earlier than `x`'s
      duration plus its gap after `x`. */
  predicate Follows(steps: seq<SeqStep>, x: StepStart, y: StepStart) {
    && x.index < |steps|
    && y.index == x.index + 1
    && y.at >= x.at + steps[x.index].dur + steps[x.index].gap
  }

  /** The cursor stays within its table over any number of ticks. */
  lemma {:induction false} RunKeepsValid(a: Audio, times: seq<nat>)
    requires Valid(a)
    ensures Valid(Run(a, times)) && Run(a, times).cursor.steps == a.cursor.steps
    decreases |times|
  {
    if times != [] {
      RunKeepsValid(Updated(a, times[0]), times[1..]);
    }
  }

  /** Between starts nothing about the cursor's position changes, so the first
      step started in a run is the cursor's current one, no earlier than the
      time the previous step scheduled. */
  lemma {:induction false} FirstStart(a: Audio, times: seq<nat>)
    requires Valid(a)
    requires |Starts(a, times)| > 0
    ensures Starts(a, times)[0].index == a.cursor.index < |a.cursor.steps|
    ensures Starts(a, times)[0].at >= a.cursor.nextStart
    decreases |times|
  {
    var b := Updated(a, times[0]);
    if b.cursor.index == a.cursor.index {
      assert Starts(a, times) == Starts(b, times[1..]);
      assert b.cursor.nextStart == a.cursor.nextStart;
      FirstStart(b, times[1..]);
    }
  }

  /** Steps of one installed table start in order, one at a time, and each no
      earlier than the previous one's duration plus gap: no overlap, no step
      before its gap. */
  lemma {:induction false} StartsAreSpaced(a: Audio, times: seq<nat>)
    requires Valid(a)
    ensures forall j :: 0 <= j < |Starts(a, times)| ==> Starts(a, times)[j].index < |a.cursor.steps|
    ensures forall j :: 0 <= j < |Starts(a, times)| - 1 ==>
              Follows(a.cursor.steps, Starts(a, times)[j], Starts(a, times)[j + 1])
    decreases |times|
  {
    if times != [] {
      var b := Updated(a, times[0]);
      var rest := Starts(b, times[1..]);
      StartsAreSpaced(b, times[1..]);
      assert b.cursor.steps == a.cursor.steps;
      if b.cursor.index != a.cursor.index {
        var ss := Starts(a, times);
        var h := StepStart(a.cursor.index, times[0]);
        assert ss == [h] + rest;
        assert StartsStep(a, b, times[0]);
        if |rest| > 0 {
          FirstStart(b, times[1..]);
          assert Follows(a.cursor.steps, ss[0], ss[1]);
        }
        forall j | 1 <= j < |ss| - 1
          ensures Follows(a.cursor.steps, ss[j], ss[j + 1])
        {
          assert ss[j] == rest[j - 1] && ss[j + 1] == rest[j];
        }
        forall j | 1 <= j < |ss|
          ensures ss[j].index < |a.cursor.steps|
        {
          assert ss[j] == rest[j - 1];
        }
      } else {
        assert Starts(a, times) == rest;
      }
    }
  }

  /** The file-scope state of src/sound.cpp: the cursor `seq` and the tone `current`. */
  class Player {
    var cursor: RunningSequence
    var current: ActiveTone

    function State(): Audio
      reads this
    {
      Audio(cursor, current)
    }

    constructor ()
      ensures State() == Silent
    {
      cursor := RunningSequence([], 0, 0, false);
      current := ActiveTone(0, 0, false);
    }

    method StartSequence(steps: seq<SeqStep>)
      modifies this
      ensures cursor == RunningSequence(steps, 0, 0, true) && current == old(current)
    {
      cursor := cursor.(steps := steps);
      cursor := cursor.(index := 0);
      cursor := cursor.(nextStart := 0);
      cursor := cursor.(active := true);
    }

    method StopTone(now: nat)
      modifies this
      ensures current == Stopped(old(current), now) && cursor == old(cursor)
    {
      if current.active && now >= current.endMs {
        current := current.(active := false);
      }
    }

    method ProcessSequence(now: nat)
      modifies this
      ensures State() == Processed(old(State()), now)
    {
      if !cursor.active { return; }
      if current.active { return; }
      if now < cursor.nextStart { return; }
      if cursor.index >= |cursor.steps| {
        cursor := cursor.(active := false);
        return;
      }
      var step := cursor.steps[cursor.index];
      current := current.(freq := step.freq);
      current := current.(endMs := now + step.dur);
      current := current.(active := true);
      cursor := cursor.(nextStart := current.endMs + step.gap);
      cursor := cursor.(index := cursor.index + 1);
    }

    method Update(now: nat)
      modifies this
      ensures State() == Updated(old(State()), now)
    {
      StopTone(now);
      ProcessSequence(now);
    }

    method PlayTone(freq: int, durationMs: int, now: nat)
      modifies this
      ensures State() == Played(old(State()), freq, durationMs, now)
    {
      if freq <= 0 || durationMs <= 0 { return; }
      current := current.(freq := freq);
      current := current.(endMs := now + durationMs);
      current := current.(active := true);
    }

    method Trigger(e: Event)
      modifies this
      ensures State() == Triggered(old(State()), e)
    {
      var steps := MapEvent(e);
      if |steps| == 0 { return; }
      StartSequence(steps);
    }
  }
}
