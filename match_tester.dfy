/**
 * The match tester: watches one "bad" value (a battery that is discharging)
 * and alerts when the watched value becomes bad or stops being bad. Both
 * transitions are gated by the same recency guard as the numeric tester.
 */
module MatchTesting {
  import opened Optional
  import opened Alerts
  import opened StatTesting

  datatype MatchConfig<T> = MatchConfig(badValue: T, badMessage: string, goodMessage: string, minMessageInterval: int)

  datatype MatchState = MatchState(wasBad: bool, lastMessaged: Option<int>)

  datatype MatchOutcome = MatchOutcome(state: MatchState, alerts: seq<Alert>)

  /** A tested value with the time at which it is tested. */
  datatype Observation<T> = Observation(value: T, at: int)

  const InitialMatch := MatchState(false, None)

  /** The alert announcing that the watched value became bad, or stopped being bad. */
  function FlipAlert<T>(c: MatchConfig<T>, nowBad: bool): Alert {
    Alert(if nowBad then c.badMessage else c.goodMessage, Blank)
  }

  /** One call of `test(value)` at time `now`. */
  function MatchStep<T(==)>(c: MatchConfig<T>, s: MatchState, value: T, now: int): (r: MatchOutcome)
    // at most one alert per call
    ensures |r.alerts| <= 1
    // an alert is sent exactly when `wasBad` flips, and it names the new condition
    ensures r.alerts != [] <==> r.state.wasBad != s.wasBad
    ensures r.alerts != [] ==> r.alerts == [FlipAlert(c, r.state.wasBad)]
    // a flip stamps the present time; otherwise the state is left alone
    ensures r.alerts != [] ==> r.state.lastMessaged == Some(now)
    ensures r.alerts == [] ==> r.state == s
    // it flips to bad on the bad value, back on any other value, and only when recent
    ensures r.state.wasBad != s.wasBad
        <==> (value == c.badValue) != s.wasBad && Recent(s.lastMessaged, now, c.minMessageInterval)
  {
    if value == c.badValue then
      if !s.wasBad && Recent(s.lastMessaged, now, c.minMessageInterval) then
        MatchOutcome(MatchState(true, Some(now)), [Alert(c.badMessage, Blank)])
      else
        MatchOutcome(s, [])
    else if s.wasBad && Recent(s.lastMessaged, now, c.minMessageInterval) then
      MatchOutcome(MatchState(false, Some(now)), [Alert(c.goodMessage, Blank)])
    else
      MatchOutcome(s, [])
  }

  function MatchRun<T(==)>(c: MatchConfig<T>, s: MatchState, observations: seq<Observation<T>>): MatchOutcome
    decreases |observations|
  {
    if observations == [] then MatchOutcome(s, [])
    else
      var first := MatchStep(c, s, observations[0].value, observations[0].at);
      var rest := MatchRun(c, first.state, observations[1..]);
      MatchOutcome(rest.state, first.alerts + rest.alerts)
  }

  /**
   * The stamp is only ever written inside the two guarded branches, and the
   * guard needs a stamp: a tester with no stamp is frozen. In particular a
   * tester fresh from its constructor never sends an alert and never
   * records the bad value, whatever it is fed.
   */
  lemma {:induction false} FrozenWithoutStamp<T>(c: MatchConfig<T>, s: MatchState, observations: seq<Observation<T>>)
    requires s.lastMessaged.None?
    ensures MatchRun(c, s, observations) == MatchOutcome(s, [])
    decreases |observations|
  {
    if observations != [] {
      FrozenWithoutStamp(c, s, observations[1..]);
    }
  }

  /** Every run sends at most one alert per observation. */
  lemma {:induction false} MatchRunAlertsBounded<T>(c: MatchConfig<T>, s: MatchState, observations: seq<Observation<T>>)
    ensures |MatchRun(c, s, observations).alerts| <= |observations|
    decreases |observations|
  {
    if observations != [] {
      MatchRunAlertsBounded(c, MatchStep(c, s, observations[0].value, observations[0].at).state, observations[1..]);
    }
  }

  /**
   * Alerts alternate: in any run they go bad, good, bad, ... or good, bad,
   * good, ..., starting from whichever the current state is not.
   */
  lemma {:induction false} AlertsAlternate<T>(c: MatchConfig<T>, s: MatchState, observations: seq<Observation<T>>)
    ensures forall k | 0 <= k < |MatchRun(c, s, observations).alerts| ::
      MatchRun(c, s, observations).alerts[k] == FlipAlert(c, (k % 2 == 0) != s.wasBad)
    decreases |observations|
  {
    if observations != [] {
      var first := MatchStep(c, s, observations[0].value, observations[0].at);
      var rest := MatchRun(c, first.state, observations[1..]);
      AlertsAlternate(c, first.state, observations[1..]);
      var a := MatchRun(c, s, observations).alerts;
      assert a == first.alerts + rest.alerts;
      forall k | 0 <= k < |a|
        ensures a[k] == FlipAlert(c, (k % 2 == 0) != s.wasBad)
      {
        if first.alerts == [] {
          assert a[k] == rest.alerts[k];
        } else if k > 0 {
          assert a[k] == rest.alerts[k - 1];
          assert ((k - 1) % 2 == 0) == !(k % 2 == 0);
        }
      }
    }
  }

  class MatchStatTester<T(==)> {
    const badValue: T
    const badMessage: string
    const goodMessage: string
    const minMessageInterval: int
    var lastMessaged: Option<int>
    var wasBad: bool

    constructor (badValue: T, badMessage: string, goodMessage: string, minMessageInterval: int)
      ensures Config() == MatchConfig(badValue, badMessage, goodMessage, minMessageInterval)
      ensures State() == InitialMatch
    {
      this.badValue := badValue;
      this.badMessage := badMessage;
      this.goodMessage := goodMessage;
      this.minMessageInterval := minMessageInterval;
      lastMessaged := None;
      wasBad := false;
    }

    function Config(): MatchConfig<T> {
      MatchConfig(badValue, badMessage, goodMessage, minMessageInterval)
    }

    function State(): MatchState
      reads this
    {
      MatchState(wasBad, lastMessaged)
    }

    /** Tests one value at time `now`, sending any alert through `outbox`. */
    method Test(test: T, now: int, outbox: Outbox)
      modifies this, outbox
      ensures State() == MatchStep(Config(), old(State()), test, now).state
      ensures outbox.sent == old(outbox.sent) + MatchStep(Config(), old(State()), test, now).alerts
    {
      if test == badValue {
        if !wasBad && Recent(lastMessaged, now, minMessageInterval) {
          wasBad := true;
          lastMessaged := Some(now);
          outbox.Send(badMessage, Blank);
        }
      } else if wasBad && Recent(lastMessaged, now, minMessageInterval) {
        wasBad := false;
        lastMessaged := Some(now);
        outbox.Send(goodMessage, Blank);
      }
    }
  }
}
