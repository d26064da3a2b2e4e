/**
 * The battery monitor thread of src/core/monitor.py: one iteration of its
 * polling loop, the power-edge detection, the arming and disarming of the
 * shutdown timer and the one-shot `shutdown_triggered` emission.
 *
 * Time is whole seconds passed in as `now`; the battery reading is passed in
 * as `Some(sample)` or `None` when no battery is reported.
 */
module Monitor {
  import opened Wrappers

  /** What `psutil.sensors_battery()` reports: `power_plugged` and `percent`. */
  datatype Sample = Sample(onAc: bool, percent: int)

  /** The configuration entries one iteration reads: `enabled`, `delay_minutes`, `battery_percent`. */
  datatype Settings = Settings(enabled: bool, delayMinutes: int, batteryPercent: int)

  /** The monitor fields that the loop updates. */
  datatype MonitorState = MonitorState(wasOnAc: bool, timerStarted: bool, shutdownTime: Option<int>)

  /** The fields as the constructor sets them. */
  const Initial := MonitorState(true, false, None)

  /** A started timer always has a deadline. */
  predicate Inv(s: MonitorState)
  {
    s.timerStarted ==> s.shutdownTime.Some?
  }

  /** Every iteration reads the battery and the configuration afresh. */
  datatype PollInput = PollInput(sample: Option<Sample>, now: int, cfg: Settings)

  /**
   * One iteration of the loop: the new fields and whether
   * `shutdown_triggered` was emitted. The four actions happen in the source's
   * order: arm on an AC-to-battery edge, disarm on a battery-to-AC edge, fire
   * when armed on battery past the deadline at or below the threshold, then
   * record the power state.
   */
  function Step(s: MonitorState, sample: Option<Sample>, now: int, cfg: Settings): (r: (MonitorState, bool))
    requires Inv(s)
    ensures Inv(r.0)
  {
    if !cfg.enabled || sample.None? then (s, false)
    else
      var onAc := sample.value.onAc;
      var armed :=
        if s.wasOnAc && !onAc && !s.timerStarted
        then s.(timerStarted := true, shutdownTime := Some(now + cfg.delayMinutes * 60))
        else s;
      var disarmed :=
        if !armed.wasOnAc && onAc && armed.timerStarted
        then armed.(timerStarted := false, shutdownTime := None)
        else armed;
      var fire :=
        disarmed.timerStarted && !onAc
        && now >= disarmed.shutdownTime.value && sample.value.percent <= cfg.batteryPercent;
      var fired := if fire then disarmed.(timerStarted := false) else disarmed;
      (fired.(wasOnAc := onAc), fire)
  }

  /** The monitor thread object. */
  class BatteryMonitor {
    var wasOnAc: bool
    var timerStarted: bool
    var shutdownTime: Option<int>
    var running: bool

    function State(): MonitorState
      reads this
    {
      MonitorState(wasOnAc, timerStarted, shutdownTime)
    }

    predicate Valid()
      reads this
    {
      Inv(State())
    }

    constructor ()
      ensures Valid() && running
      ensures State() == Initial
    {
      running := true;
      wasOnAc := true;
      timerStarted := false;
      shutdownTime := None;
    }

    /**
     * One pass of the `while self.running` loop body (the two-second sleep
     * aside); returns whether `shutdown_triggered` was emitted.
     */
    method Poll(sample: Option<Sample>, now: int, cfg: Settings) returns (emitted: bool)
      requires Valid() && running
      modifies this
      ensures Valid() && running
      ensures (State(), emitted) == Step(old(State()), sample, now, cfg)
    {
      emitted := false;
      if cfg.enabled {
        if sample.Some? {
          var onAc := sample.value.onAc;
          var percent := sample.value.percent;
          if wasOnAc && !onAc {
            if !timerStarted {
              timerStarted := true;
              shutdownTime := Some(now + cfg.delayMinutes * 60);
            }
          }
          if !wasOnAc && onAc {
            if timerStarted {
              timerStarted := false;
              shutdownTime := None;
            }
          }
          if timerStarted && !onAc {
            if now >= shutdownTime.value && percent <= cfg.batteryPercent {
              emitted := true;
              timerStarted := false;
            }
          }
          wasOnAc := onAc;
        }
      }
    }

    /** Ends the loop: no iteration runs afterwards. */
    method Stop()
      modifies this`running
      ensures !running
    {
      running := false;
    }
  }

  /**
   * Whether a poll starts the timer on an AC-to-battery edge; only such a
   * poll reads `delay_minutes`.
   */
  predicate StartsTimer(s: MonitorState, sample: Option<Sample>, enabled: bool)
  {
    enabled && sample.Some? && s.wasOnAc && !sample.value.onAc && !s.timerStarted
  }

  /**
   * Whether a poll compares the charge with `battery_percent`: an enabled
   * battery poll whose timer runs after the edge check and whose deadline has
   * passed, since the `and` evaluates the comparison only then.
   */
  predicate TestsThreshold(s: MonitorState, sample: Option<Sample>, now: int, cfg: Settings)
    requires Inv(s)
  {
    && cfg.enabled && sample.Some? && !sample.value.onAc
    && (s.timerStarted || s.wasOnAc)
    && now >= (if s.timerStarted then s.shutdownTime.value else now + cfg.delayMinutes * 60)
  }

  // ---------------------------------------------------------------------------
  // Properties of one step
  // ---------------------------------------------------------------------------

  /** A disabled poll, or one without a battery, changes no field and emits nothing. */
  lemma InertPoll(s: MonitorState, sample: Option<Sample>, now: int, cfg: Settings)
    requires Inv(s)
    requires !cfg.enabled || sample.None?
    ensures Step(s, sample, now, cfg) == (s, false)
  {
  }

  /**
   * On an AC-to-battery edge with the timer stopped, the deadline becomes
   * `now + delay_minutes*60` and the timer runs, unless it fired in the same
   * poll, which needs a delay of zero minutes or less.
   */
  lemma ArmOnBatteryEdge(s: MonitorState, p: int, now: int, cfg: Settings)
    requires Inv(s) && cfg.enabled
    requires s.wasOnAc && !s.timerStarted
    ensures var (t, emitted) := Step(s, Some(Sample(false, p)), now, cfg);
      && t.shutdownTime == Some(now + cfg.delayMinutes * 60)
      && t.timerStarted == !emitted
      && (emitted <==> cfg.delayMinutes <= 0 && p <= cfg.batteryPercent)
      && !t.wasOnAc
  {
  }

  /** A running timer's deadline is never moved by a later battery poll. */
  lemma DeadlineNotReset(s: MonitorState, p: int, now: int, cfg: Settings)
    requires Inv(s) && s.timerStarted
    ensures Step(s, Some(Sample(false, p)), now, cfg).0.shutdownTime == s.shutdownTime
  {
  }

  /** A battery-to-AC edge with the timer running stops it and forgets the deadline. */
  lemma DisarmOnReconnect(s: MonitorState, p: int, now: int, cfg: Settings)
    requires Inv(s) && cfg.enabled
    requires !s.wasOnAc && s.timerStarted
    ensures Step(s, Some(Sample(true, p)), now, cfg) == (MonitorState(true, false, None), false)
  {
  }

  /**
   * The emission condition in full: an enabled battery poll whose timer runs
   * after the edge check, past the deadline, at or below the threshold. After
   * an emission the timer is stopped.
   */
  lemma EmitExactlyWhen(s: MonitorState, sample: Option<Sample>, now: int, cfg: Settings)
    requires Inv(s)
    ensures var (t, emitted) := Step(s, sample, now, cfg);
      && (emitted <==>
            && cfg.enabled && sample.Some? && !sample.value.onAc
            && (s.timerStarted || s.wasOnAc)
            && now >= (if s.timerStarted then s.shutdownTime.value else now + cfg.delayMinutes * 60)
            && sample.value.percent <= cfg.batteryPercent)
      && (emitted ==> !t.timerStarted)
  {
  }

  /** Past the deadline but above the threshold, the timer keeps running with the same deadline. */
  lemma StaysArmedAboveThreshold(s: MonitorState, p: int, now: int, cfg: Settings)
    requires Inv(s) && cfg.enabled && s.timerStarted
    requires p > cfg.batteryPercent
    ensures Step(s, Some(Sample(false, p)), now, cfg) == (MonitorState(false, true, s.shutdownTime), false)
  {
  }

  /** An enabled poll with a battery records its power state. */
  lemma RecordsPowerState(s: MonitorState, x: Sample, now: int, cfg: Settings)
    requires Inv(s) && cfg.enabled
    ensures Step(s, Some(x), now, cfg).0.wasOnAc == x.onAc
  {
  }

  /** Because `was_on_ac` starts true, the first enabled poll on battery arms the timer. */
  lemma FirstBatteryPollArms(p: int, now: int, cfg: Settings)
    requires cfg.enabled && cfg.delayMinutes >= 1
    ensures Step(Initial, Some(Sample(false, p)), now, cfg)
         == (MonitorState(false, true, Some(now + cfg.delayMinutes * 60)), false)
  {
  }

  /**
   * Firing stops the timer but leaves the deadline in `shutdown_time`: the
   * running timer's, or the one set in the same poll.
   */
  lemma FiringKeepsDeadline(s: MonitorState, sample: Option<Sample>, now: int, cfg: Settings)
    requires Inv(s)
    requires Step(s, sample, now, cfg).1
    ensures Step(s, sample, now, cfg).0.shutdownTime ==
      if s.timerStarted then s.shutdownTime else Some(now + cfg.delayMinutes * 60)
  {
  }

  /**
   * A poll depends on `delay_minutes` only when it starts the timer and on
   * `battery_percent` only when it compares the charge: settings that agree
   * on what the poll reads give the same step.
   */
  lemma StepReadsOnlyWhatItUses(s: MonitorState, sample: Option<Sample>, now: int, cfg: Settings, other: Settings)
    requires Inv(s) && other.enabled == cfg.enabled
    requires StartsTimer(s, sample, cfg.enabled) ==> other.delayMinutes == cfg.delayMinutes
    requires TestsThreshold(s, sample, now, cfg) ==> other.batteryPercent == cfg.batteryPercent
    ensures Step(s, sample, now, other) == Step(s, sample, now, cfg)
  {
  }

  // ---------------------------------------------------------------------------
  // Runs of several polls
  // ---------------------------------------------------------------------------

  /** Whether this poll starts the timer on an AC-to-battery edge. */
  predicate Arms(s: MonitorState, p: PollInput)
  {
    StartsTimer(s, p.sample, p.cfg.enabled)
  }

  /** The state after a run of polls, with the number of emissions and of timer starts. */
  function Run(s: MonitorState, polls: seq<PollInput>): (r: (MonitorState, nat, nat))
    requires Inv(s)
    ensures Inv(r.0)
    decreases |polls|
  {
    if polls == [] then (s, 0, 0)
    else
      var p := polls[0];
      var (t, emitted) := Step(s, p.sample, p.now, p.cfg);
      var (u, emits, arms) := Run(t, polls[1..]);
      (u, emits + (if emitted then 1 else 0), arms + (if Arms(s, p) then 1 else 0))
  }

  /**
   * Every emission is paid for by a timer start: over any run there are no
   * more emissions than starts, plus one when the timer was already running.
   */
  lemma {:induction false} EmitsBoundedByArms(s: MonitorState, polls: seq<PollInput>)
    requires Inv(s)
    ensures Run(s, polls).1 <= Run(s, polls).2 + (if s.timerStarted then 1 else 0)
    decreases |polls|
  {
    if polls != [] {
      var p := polls[0];
      var (t, emitted) := Step(s, p.sample, p.now, p.cfg);
      EmitsBoundedByArms(t, polls[1..]);
      assert t.timerStarted ==> s.timerStarted || Arms(s, p);
      assert emitted ==> !t.timerStarted && (s.timerStarted || Arms(s, p));
    }
  }

  /**
   * Between two timer starts there is at most one emission: a run with no
   * start emits at most once, and not at all when the timer was stopped.
   */
  lemma {:induction false} AtMostOneEmitBetweenArms(s: MonitorState, polls: seq<PollInput>)
    requires Inv(s)
    requires Run(s, polls).2 == 0
    ensures Run(s, polls).1 <= (if s.timerStarted then 1 else 0)
  {
    EmitsBoundedByArms(s, polls);
  }

  /** A run of polls that all find monitoring disabled changes nothing and emits nothing. */
  lemma {:induction false} DisabledRunInert(s: MonitorState, polls: seq<PollInput>)
    requires Inv(s)
    requires forall k :: 0 <= k < |polls| ==> !polls[k].cfg.enabled
    ensures Run(s, polls) == (s, 0, 0)
    decreases |polls|
  {
    if polls != [] {
      InertPoll(s, polls[0].sample, polls[0].now, polls[0].cfg);
      assert !Arms(s, polls[0]);
      DisabledRunInert(s, polls[1..]);
    }
  }

  /**
   * The worked example: delay 5 minutes, threshold 50%. On AC at t=0, then on
   * battery at 80% at t=0: armed with deadline 300. At t=300 still at 80%:
   * still armed. At t=310 at 49%: it fires. At t=312 at 49%: no second emission.
   */
  lemma WorkedExample()
    ensures var cfg := Settings(true, 5, 50);
      var (s1, e1) := Step(Initial, Some(Sample(true, 80)), 0, cfg);
      var (s2, e2) := Step(s1, Some(Sample(false, 80)), 0, cfg);
      var (s3, e3) := Step(s2, Some(Sample(false, 80)), 300, cfg);
      var (s4, e4) := Step(s3, Some(Sample(false, 49)), 310, cfg);
      var (s5, e5) := Step(s4, Some(Sample(false, 49)), 312, cfg);
      && !e1 && !e2 && !e3 && e4 && !e5
      && s2 == MonitorState(false, true, Some(300))
      && s3 == s2
      && !s4.timerStarted && !s5.timerStarted
  {
  }
}
