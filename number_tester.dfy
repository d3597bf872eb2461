/**
 * The numeric threshold tester: a hysteresis machine over two flags
 * (`isWarning`, `isDangering`) and the time of the last stamped alert.
 * Every sample is compared with a warning level and a danger level, may flip
 * the flags, may stamp the time and sends at most one alert.
 */
module NumberTesting {
  import opened Optional
  import opened Alerts
  import opened StatTesting

  datatype NumberConfig = NumberConfig(name: string, warningLevel: real, dangerLevel: real, minMessageInterval: int)

  datatype NumberState = NumberState(isWarning: bool, isDangering: bool, lastMessaged: Option<int>)

  /** The new state after one sample and the alerts that sample sent. */
  datatype NumberOutcome = NumberOutcome(state: NumberState, alerts: seq<Alert>)

  /** A sample with the time at which it is tested. */
  datatype Sample = Sample(value: real, at: int)

  /** A fresh tester: both flags down, no alert stamped yet. */
  const Initial := NumberState(false, false, None)

  /** The levels are configured the intended way round. */
  predicate Ordered(c: NumberConfig) {
    c.warningLevel <= c.dangerLevel
  }

  function TooHighSubject(name: string): string { "\U{2620} " + name + " is too damn high!" }
  function RecoveringSubject(name: string): string { "\U{26A0} " + name + " is recovering" }
  function GettingHighSubject(name: string): string { "\U{26A0} " + name + " is getting high!" }
  function RecoveredSubject(name: string): string { "\U{1F44D} " + name + " has recovered" }

  function TooHigh(c: NumberConfig, value: real): Alert { Alert(TooHighSubject(c.name), AtLeast(value, c.dangerLevel)) }
  function Recovering(c: NumberConfig, value: real): Alert { Alert(RecoveringSubject(c.name), AtLeast(value, c.warningLevel)) }
  function GettingHigh(c: NumberConfig, value: real): Alert { Alert(GettingHighSubject(c.name), AtLeast(value, c.warningLevel)) }
  function Recovered(c: NumberConfig, value: real): Alert { Alert(RecoveredSubject(c.name), Below(value, c.warningLevel)) }

  /** Whether a step moved either flag. */
  predicate FlagsMoved(s: NumberState, t: NumberState) {
    s.isWarning != t.isWarning || s.isDangering != t.isDangering
  }

  /**
   * One call of `test(value)` at time `now`. The branches nest exactly as
   * in the source: the danger level is only looked at once the sample has
   * reached the warning level.
   */
  function NumberStep(c: NumberConfig, s: NumberState, value: real, now: int): (r: NumberOutcome)
    // at most one alert per call
    ensures |r.alerts| <= 1
    // an alert is sent exactly when a flag moves
    ensures r.alerts != [] <==> FlagsMoved(s, r.state)
    // the stamp is either kept or set to the present time
    ensures r.state.lastMessaged == s.lastMessaged || r.state.lastMessaged == Some(now)
  {
    if value >= c.warningLevel then
      if value >= c.dangerLevel then
        if !s.isDangering then
          NumberOutcome(s.(lastMessaged := Some(now), isDangering := true), [TooHigh(c, value)])
        else
          NumberOutcome(s, [])
      else if s.isDangering && Recent(s.lastMessaged, now, c.minMessageInterval) then
        NumberOutcome(s.(lastMessaged := Some(now), isDangering := false), [Recovering(c, value)])
      else if !s.isWarning then
        NumberOutcome(s.(isWarning := true), [GettingHigh(c, value)])
      else
        NumberOutcome(s, [])
    else if s.isWarning && Recent(s.lastMessaged, now, c.minMessageInterval) then
      NumberOutcome(s.(isDangering := false, isWarning := false), [Recovered(c, value)])
    else
      NumberOutcome(s, [])
  }

  /** A sequence of calls, oldest sample first; the alerts in the order sent. */
  function NumberRun(c: NumberConfig, s: NumberState, samples: seq<Sample>): NumberOutcome
    decreases |samples|
  {
    if samples == [] then NumberOutcome(s, [])
    else
      var first := NumberStep(c, s, samples[0].value, samples[0].at);
      var rest := NumberRun(c, first.state, samples[1..]);
      NumberOutcome(rest.state, first.alerts + rest.alerts)
  }

  // ---------------------------------------------------------------------
  // One call, branch by branch

  /** Entering danger stamps the time, raises `isDangering` and sends "too damn high". */
  lemma EnteringDanger(c: NumberConfig, s: NumberState, value: real, now: int)
    requires Ordered(c) && value >= c.dangerLevel && !s.isDangering
    ensures NumberStep(c, s, value, now)
         == NumberOutcome(NumberState(s.isWarning, true, Some(now)), [TooHigh(c, value)])
  {
  }

  /** Staying in danger changes nothing and sends nothing. */
  lemma StayingInDanger(c: NumberConfig, s: NumberState, value: real, now: int)
    requires Ordered(c) && value >= c.dangerLevel && s.isDangering
    ensures NumberStep(c, s, value, now) == NumberOutcome(s, [])
  {
  }

  /** The three outcomes of a sample in the warning band. */
  lemma WarningBand(c: NumberConfig, s: NumberState, value: real, now: int)
    requires c.warningLevel <= value < c.dangerLevel
    ensures var r := NumberStep(c, s, value, now);
      if s.isDangering && Recent(s.lastMessaged, now, c.minMessageInterval) then
        r == NumberOutcome(NumberState(s.isWarning, false, Some(now)), [Recovering(c, value)])
      else if !s.isWarning then
        r == NumberOutcome(s.(isWarning := true), [GettingHigh(c, value)])
      else
        r == NumberOutcome(s, [])
  {
  }

  /** Below the warning level: a recent warning is cleared, anything else is left alone. */
  lemma BelowWarning(c: NumberConfig, s: NumberState, value: real, now: int)
    requires value < c.warningLevel
    ensures var r := NumberStep(c, s, value, now);
      if s.isWarning && Recent(s.lastMessaged, now, c.minMessageInterval) then
        r == NumberOutcome(NumberState(false, false, s.lastMessaged), [Recovered(c, value)])
      else
        r == NumberOutcome(s, [])
    ensures var r := NumberStep(c, s, value, now);
      (r.state.isWarning ==> s.isWarning) && (r.state.isDangering ==> s.isDangering)
  {
  }

  /** Whenever `isDangering` is up, a time has been stamped. */
  predicate DangerStamped(s: NumberState) {
    s.isDangering ==> s.lastMessaged.Some?
  }

  lemma StepKeepsDangerStamped(c: NumberConfig, s: NumberState, value: real, now: int)
    requires DangerStamped(s)
    ensures DangerStamped(NumberStep(c, s, value, now).state)
    ensures s.lastMessaged.Some? ==> NumberStep(c, s, value, now).state.lastMessaged.Some?
  {
  }

  // ---------------------------------------------------------------------
  // Sequences of calls

  /** A run followed by one more sample: the last step starts where the run ended. */
  lemma {:induction false} RunSnoc(c: NumberConfig, s: NumberState, samples: seq<Sample>, last: Sample)
    ensures var done := NumberRun(c, s, samples);
      var step := NumberStep(c, done.state, last.value, last.at);
      NumberRun(c, s, samples + [last]) == NumberOutcome(step.state, done.alerts + step.alerts)
    decreases |samples|
  {
    if samples != [] {
      var first := NumberStep(c, s, samples[0].value, samples[0].at);
      assert (samples + [last])[1..] == samples[1..] + [last];
      RunSnoc(c, first.state, samples[1..], last);
    }
  }

  /** Every call sends at most one alert, so a run sends at most one per sample. */
  lemma {:induction false} RunAlertsBounded(c: NumberConfig, s: NumberState, samples: seq<Sample>)
    ensures |NumberRun(c, s, samples).alerts| <= |samples|
    decreases |samples|
  {
    if samples != [] {
      RunAlertsBounded(c, NumberStep(c, s, samples[0].value, samples[0].at).state, samples[1..]);
    }
  }

  /** `DangerStamped` holds of every state a run reaches from one where it holds. */
  lemma {:induction false} RunKeepsDangerStamped(c: NumberConfig, s: NumberState, samples: seq<Sample>)
    requires DangerStamped(s)
    ensures DangerStamped(NumberRun(c, s, samples).state)
    decreases |samples|
  {
    if samples != [] {
      StepKeepsDangerStamped(c, s, samples[0].value, samples[0].at);
      RunKeepsDangerStamped(c, NumberStep(c, s, samples[0].value, samples[0].at).state, samples[1..]);
    }
  }

  predicate AllDangerous(c: NumberConfig, samples: seq<Sample>) {
    forall i | 0 <= i < |samples| :: samples[i].value >= c.dangerLevel
  }

  /**
   * A stretch of samples at or above the danger level sends exactly one
   * "too damn high" alert, for the first of them, and only if the tester
   * was not already in danger: never one per sample.
   */
  lemma {:induction false} DangerStretchAlertsOnce(c: NumberConfig, s: NumberState, samples: seq<Sample>)
    requires Ordered(c) && samples != [] && AllDangerous(c, samples)
    ensures NumberRun(c, s, samples).state.isDangering
    ensures NumberRun(c, s, samples).alerts
         == if s.isDangering then [] else [TooHigh(c, samples[0].value)]
    decreases |samples|
  {
    var first := NumberStep(c, s, samples[0].value, samples[0].at);
    assert first.state.isDangering;
    if |samples| > 1 {
      StayInDanger(c, first.state, samples[1..]);
    }
  }

  /** Once in danger, further dangerous samples change nothing and send nothing. */
  lemma {:induction false} StayInDanger(c: NumberConfig, s: NumberState, samples: seq<Sample>)
    requires Ordered(c) && s.isDangering && AllDangerous(c, samples)
    ensures NumberRun(c, s, samples) == NumberOutcome(s, [])
    decreases |samples|
  {
    if samples != [] {
      assert NumberStep(c, s, samples[0].value, samples[0].at) == NumberOutcome(s, []);
      StayInDanger(c, s, samples[1..]);
    }
  }

  /**
   * A tester that is not warning stays silent and unchanged under samples
   * below the warning level, whatever its danger flag.
   */
  lemma {:induction false} QuietBelowWarning(c: NumberConfig, s: NumberState, samples: seq<Sample>)
    requires !s.isWarning
    requires forall i | 0 <= i < |samples| :: samples[i].value < c.warningLevel
    ensures NumberRun(c, s, samples) == NumberOutcome(s, [])
    decreases |samples|
  {
    if samples != [] {
      QuietBelowWarning(c, s, samples[1..]);
    }
  }

  /**
   * The consequence of the recency guard reading `<`: while no alert has
   * been stamped (only entering danger stamps one), neither "recovering" nor
   * "has recovered" can be sent. Below the danger level such a tester only
   * ever sends "getting high", its warning flag never comes down and nothing
   * gets stamped.
   */
  lemma {:induction false} NoRecoveryWithoutStamp(c: NumberConfig, s: NumberState, samples: seq<Sample>)
    requires s.lastMessaged.None?
    requires forall i | 0 <= i < |samples| :: samples[i].value < c.dangerLevel
    ensures var r := NumberRun(c, s, samples);
      && r.state.lastMessaged.None?
      && r.state.isDangering == s.isDangering
      && (s.isWarning ==> r.state.isWarning)
      && forall k | 0 <= k < |r.alerts| :: r.alerts[k].subject == GettingHighSubject(c.name)
    decreases |samples|
  {
    if samples != [] {
      var first := NumberStep(c, s, samples[0].value, samples[0].at);
      NoRecoveryWithoutStamp(c, first.state, samples[1..]);
      var rest := NumberRun(c, first.state, samples[1..]);
      assert NumberRun(c, s, samples).alerts == first.alerts + rest.alerts;
    }
  }

  /**
   * The worked example: levels 0.7 and 0.9, samples 0.5, 0.75, 0.95, 0.96,
   * 0.5. The second sample sends "getting high", the third "too damn high",
   * the fourth nothing, and the fifth "has recovered" only when it comes
   * within the interval of the third.
   */
  lemma WorkedExample(name: string, interval: int, t1: int, t2: int, t3: int, t4: int, t5: int)
    ensures var c := NumberConfig(name, 0.7, 0.9, interval);
      NumberRun(c, Initial, [Sample(0.5, t1), Sample(0.75, t2), Sample(0.95, t3), Sample(0.96, t4), Sample(0.5, t5)]).alerts
      == [GettingHigh(c, 0.75), TooHigh(c, 0.95)] + (if t5 - t3 < interval then [Recovered(c, 0.5)] else [])
  {
    var c := NumberConfig(name, 0.7, 0.9, interval);
    var samples := [Sample(0.5, t1), Sample(0.75, t2), Sample(0.95, t3), Sample(0.96, t4), Sample(0.5, t5)];
    var s1 := Initial;
    var s2 := NumberState(true, false, None);
    var s3 := NumberState(true, true, Some(t3));
    var s5 := if t5 - t3 < interval then NumberState(false, false, Some(t3)) else s3;
    var last := if t5 - t3 < interval then [Recovered(c, 0.5)] else [];
    assert NumberRun(c, s3, samples[4..]) == NumberOutcome(s5, last);
    assert NumberRun(c, s3, samples[3..]) == NumberOutcome(s5, last);
    assert NumberRun(c, s2, samples[2..]) == NumberOutcome(s5, [TooHigh(c, 0.95)] + last);
    assert NumberRun(c, s1, samples[1..]) == NumberOutcome(s5, [GettingHigh(c, 0.75), TooHigh(c, 0.95)] + last);
  }

  // ---------------------------------------------------------------------
  // The tester object

  class NumberStatTester {
    const name: string
    const warningLevel: real
    const dangerLevel: real
    const minMessageInterval: int
    var isWarning: bool
    var isDangering: bool
    var lastMessaged: Option<int>

    constructor (name: string, warningLevel: real, dangerLevel: real, minMessageInterval: int)
      ensures Config() == NumberConfig(name, warningLevel, dangerLevel, minMessageInterval)
      ensures State() == Initial
    {
      this.name := name;
      this.warningLevel := warningLevel;
      this.dangerLevel := dangerLevel;
      this.minMessageInterval := minMessageInterval;
      isWarning := false;
      isDangering := false;
      lastMessaged := None;
    }

    function Config(): NumberConfig {
      NumberConfig(name, warningLevel, dangerLevel, minMessageInterval)
    }

    function State(): NumberState
      reads this
    {
      NumberState(isWarning, isDangering, lastMessaged)
    }

    /** Tests one sample at time `now`, sending any alert through `outbox`. */
    method Test(value: real, now: int, outbox: Outbox)
      modifies this, outbox
      ensures State() == NumberStep(Config(), old(State()), value, now).state
      ensures outbox.sent == old(outbox.sent) + NumberStep(Config(), old(State()), value, now).alerts
    {
      if value >= warningLevel {
        if value >= dangerLevel {
          if !isDangering {
            lastMessaged := Some(now);
            isDangering := true;
            outbox.Send(TooHighSubject(name), AtLeast(value, dangerLevel));
          }
        } else if isDangering && Recent(lastMessaged, now, minMessageInterval) {
          lastMessaged := Some(now);
          isDangering := false;
          outbox.Send(RecoveringSubject(name), AtLeast(value, warningLevel));
        } else if !isWarning {
          isWarning := true;
          outbox.Send(GettingHighSubject(name), AtLeast(value, warningLevel));
        }
      } else if isWarning && Recent(lastMessaged, now, minMessageInterval) {
        isDangering := false;
        isWarning := false;
        outbox.Send(RecoveredSubject(name), Below(value, warningLevel));
      }
    }
  }
}
