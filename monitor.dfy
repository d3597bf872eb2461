/**
 * The poll handler: for every snapshot, each section that is present is
 * reduced to one number (or one status) and handed to its tester. Disks go
 * to the registry (one tester per filesystem), memory and temperature to
 * their own numeric testers, the first battery to the power match tester.
 */
module Monitoring {
  import opened Optional
  import opened Alerts
  import opened NumberTesting
  import opened MatchTesting
  import opened Registry
  import opened Snapshot

  datatype MonitorConfig = MonitorConfig(
    memory: NumberConfig,
    disk: RegistryConfig,
    power: MatchConfig<BatteryStatus>,
    temperature: NumberConfig)

  datatype MonitorState = MonitorState(
    disks: map<string, NumberState>,
    memory: NumberState,
    power: MatchState,
    temperature: NumberState)

  datatype MonitorOutcome = MonitorOutcome(state: MonitorState, alerts: seq<Alert>)

  /** A snapshot with the time at which it is handled. */
  datatype Poll = Poll(stats: Stats, at: int)

  const BeganDischarging: string := "\U{1F50C} Began discharging"
  const PowerRestored: string := "\U{1F50B} Power restored"

  /** The testers the monitor is built with; every level comes from configuration. */
  function Configure(memoryWarn: real, memoryDanger: real, diskWarn: real, diskDanger: real,
                     tempWarn: real, tempDanger: real, minMessageInterval: int): MonitorConfig
  {
    MonitorConfig(
      NumberConfig("RAM", memoryWarn, memoryDanger, minMessageInterval),
      RegistryConfig(diskWarn, diskDanger, minMessageInterval),
      MatchConfig(Discharging, BeganDischarging, PowerRestored, minMessageInterval),
      NumberConfig("Temperature", tempWarn, tempDanger, minMessageInterval))
  }

  const InitialMonitor := MonitorState(map[], Initial, InitialMatch, Initial)

  /** The snapshot has no zero memory total and no empty list of cores. */
  predicate WellFormed(stats: Stats) {
    && (stats.memory.Some? ==> stats.memory.value.total != 0.0)
    && (stats.temperature.Some? ==> stats.temperature.value.cores != [])
  }

  /** The disks section: every disk goes through the registry. */
  function DiskSection(c: MonitorConfig, s: MonitorState, stats: Stats, now: int): RegistryOutcome {
    if stats.disks.Some? then RegistryRun(c.disk, DiskId, DiskValue, s.disks, stats.disks.value, now)
    else RegistryOutcome(s.disks, [])
  }

  /** The memory section: its used share is tested. */
  function MemorySection(c: MonitorConfig, s: MonitorState, stats: Stats, now: int): NumberOutcome
    requires WellFormed(stats)
  {
    if stats.memory.Some? then NumberStep(c.memory, s.memory, MemoryRatio(stats.memory.value), now)
    else NumberOutcome(s.memory, [])
  }

  /** The power section: only the status of the first battery is tested, if there is one. */
  function PowerSection(c: MonitorConfig, s: MonitorState, stats: Stats, now: int): MatchOutcome {
    if stats.power.Some? && |stats.power.value| != 0 then MatchStep(c.power, s.power, stats.power.value[0].status, now)
    else MatchOutcome(s.power, [])
  }

  /** The temperature section: the mean of the cores is tested. */
  function TemperatureSection(c: MonitorConfig, s: MonitorState, stats: Stats, now: int): NumberOutcome
    requires WellFormed(stats)
  {
    if stats.temperature.Some? then NumberStep(c.temperature, s.temperature, Mean(stats.temperature.value.cores), now)
    else NumberOutcome(s.temperature, [])
  }

  /**
   * One call of the poll handler. Sections are handled in the order disks,
   * memory, power, temperature; an absent section is skipped, and so is an
   * empty list of batteries. Each tester sees only its own section.
   */
  function Process(c: MonitorConfig, s: MonitorState, stats: Stats, now: int): MonitorOutcome
    requires WellFormed(stats)
  {
    var disks := DiskSection(c, s, stats, now);
    var memory := MemorySection(c, s, stats, now);
    var power := PowerSection(c, s, stats, now);
    var temperature := TemperatureSection(c, s, stats, now);
    MonitorOutcome(
      MonitorState(disks.states, memory.state, power.state, temperature.state),
      disks.alerts + memory.alerts + power.alerts + temperature.alerts)
  }

  /** The handler over a sequence of polls, oldest first. */
  function MonitorRun(c: MonitorConfig, s: MonitorState, polls: seq<Poll>): MonitorOutcome
    requires forall i | 0 <= i < |polls| :: WellFormed(polls[i].stats)
    decreases |polls|
  {
    if polls == [] then MonitorOutcome(s, [])
    else
      var first := Process(c, s, polls[0].stats, polls[0].at);
      var rest := MonitorRun(c, first.state, polls[1..]);
      MonitorOutcome(rest.state, first.alerts + rest.alerts)
  }

  /**
   * An absent section leaves its tester alone (so does an empty list of
   * batteries), and a snapshot with no section at all changes nothing and
   * sends nothing.
   */
  lemma AbsentSectionsSkipped(c: MonitorConfig, s: MonitorState, stats: Stats, now: int)
    requires WellFormed(stats)
    ensures var r := Process(c, s, stats, now);
      && (stats.disks.None? ==> r.state.disks == s.disks)
      && (stats.memory.None? ==> r.state.memory == s.memory)
      && (stats.power.None? || stats.power.value == [] ==> r.state.power == s.power)
      && (stats.temperature.None? ==> r.state.temperature == s.temperature)
    ensures Process(c, s, Stats(None, None, None, None), now) == MonitorOutcome(s, [])
  {
  }

  /** A poll sends at most one alert per disk plus one per other section. */
  lemma ProcessAlertsBounded(c: MonitorConfig, s: MonitorState, stats: Stats, now: int)
    requires WellFormed(stats)
    ensures |Process(c, s, stats, now).alerts| <= (if stats.disks.Some? then |stats.disks.value| else 0) + 3
  {
    if stats.disks.Some? {
      Registry.RunAlertsBounded(c.disk, DiskId, DiskValue, s.disks, stats.disks.value, now);
    }
  }

  /** Only the first battery is looked at: the ones after it make no difference. */
  lemma OnlyFirstBatteryCounts(c: MonitorConfig, s: MonitorState, stats: Stats, batteries: seq<Battery>, now: int)
    requires WellFormed(stats) && stats.power.Some? && |stats.power.value| != 0
    ensures Process(c, s, stats, now) == Process(c, s, stats.(power := Some(stats.power.value[..1] + batteries)), now)
  {
  }

  /**
   * The battery reading charging, discharging, discharging, charging: the
   * freshly built power tester sends nothing, not even on the first
   * discharging reading.
   */
  lemma PowerExample(c: MonitorConfig, t1: int, t2: int, t3: int, t4: int)
    ensures MatchRun(c.power, InitialMatch,
              [Observation(Charging, t1), Observation(Discharging, t2), Observation(Discharging, t3), Observation(Charging, t4)])
         == MatchOutcome(InitialMatch, [])
  {
    FrozenWithoutStamp(c.power, InitialMatch,
      [Observation(Charging, t1), Observation(Discharging, t2), Observation(Discharging, t3), Observation(Charging, t4)]);
  }

  /** Cores reading 40, 50 and 60 are tested as a temperature of 50. */
  lemma TemperatureExample(c: MonitorConfig, s: MonitorState, now: int)
    ensures Process(c, s, Stats(None, None, None, Some(Temperature([40.0, 50.0, 60.0]))), now)
         == var step := NumberStep(c.temperature, s.temperature, 50.0, now);
            MonitorOutcome(s.(temperature := step.state), step.alerts)
  {
    MeanExample();
  }

  /** A poll never adds a tester for the filesystem "none". */
  lemma NoTesterForNone(c: MonitorConfig, s: MonitorState, stats: Stats, now: int)
    requires WellFormed(stats) && Unmeasured !in s.disks
    ensures Unmeasured !in Process(c, s, stats, now).state.disks
  {
    if stats.disks.Some? {
      var items := stats.disks.value;
      Registry.RunKeys(c.disk, DiskId, DiskValue, s.disks, items, now);
      forall i | 0 <= i < |items| && DiskValue(items[i]).Some?
        ensures DiskId(items[i]) != Unmeasured
      {
      }
    }
  }

  /**
   * Over the whole life of the monitor: the filesystem "none" never gets a
   * tester, and a power tester that has never stamped an alert stays as it
   * is, so the power alerts are never sent.
   */
  lemma {:induction false} LifetimeInvariants(c: MonitorConfig, s: MonitorState, polls: seq<Poll>)
    requires forall i | 0 <= i < |polls| :: WellFormed(polls[i].stats)
    requires Unmeasured !in s.disks && s.power.lastMessaged.None?
    ensures var r := MonitorRun(c, s, polls);
      Unmeasured !in r.state.disks && r.state.power == s.power
    decreases |polls|
  {
    if polls != [] {
      var first := Process(c, s, polls[0].stats, polls[0].at);
      NoTesterForNone(c, s, polls[0].stats, polls[0].at);
      assert first.state.power == s.power;
      LifetimeInvariants(c, first.state, polls[1..]);
    }
  }

  /** Appending four batches one after the other appends them all at once. */
  lemma AppendFour(sent: seq<Alert>, a: seq<Alert>, b: seq<Alert>, c: seq<Alert>, d: seq<Alert>)
    ensures sent + a + b + c + d == sent + (a + b + c + d)
  {
  }

  /** The monitor object: the four testers the source keeps at module level. */
  class Monitor {
    const memoryTester: NumberStatTester
    const diskTesters: StatTesters<MeasuredDisk>
    const powerTester: MatchStatTester<BatteryStatus>
    const tempTester: NumberStatTester

    constructor (memoryWarn: real, memoryDanger: real, diskWarn: real, diskDanger: real,
                 tempWarn: real, tempDanger: real, minMessageInterval: int)
      ensures Valid()
      ensures Config() == Configure(memoryWarn, memoryDanger, diskWarn, diskDanger, tempWarn, tempDanger, minMessageInterval)
      ensures State() == InitialMonitor
    {
      memoryTester := new NumberStatTester("RAM", memoryWarn, memoryDanger, minMessageInterval);
      diskTesters := new StatTesters(diskWarn, diskDanger, minMessageInterval, DiskId, DiskValue);
      powerTester := new MatchStatTester(Discharging, BeganDischarging, PowerRestored, minMessageInterval);
      tempTester := new NumberStatTester("Temperature", tempWarn, tempDanger, minMessageInterval);
    }

    /** The testers are separate objects and the registry parses disks as the source does. */
    ghost predicate Valid()
      reads this, diskTesters
    {
      && diskTesters.Valid()
      && memoryTester != tempTester
      && memoryTester !in diskTesters.Repr
      && tempTester !in diskTesters.Repr
      && diskTesters.identifier == DiskId
      && diskTesters.parser == DiskValue
    }

    function Config(): MonitorConfig {
      MonitorConfig(memoryTester.Config(), diskTesters.Config(), powerTester.Config(), tempTester.Config())
    }

    ghost function State(): MonitorState
      reads this, diskTesters, diskTesters.testers.Values, memoryTester, powerTester, tempTester
    {
      MonitorState(diskTesters.States(), memoryTester.State(), powerTester.State(), tempTester.State())
    }

    /** Handles one snapshot at time `now`, sending alerts through `outbox`. */
    method ProcessStats(stats: Stats, now: int, outbox: Outbox)
      requires Valid() && WellFormed(stats)
      modifies diskTesters, diskTesters.Repr, memoryTester, powerTester, tempTester, outbox
      ensures Valid() && fresh(diskTesters.Repr - old(diskTesters.Repr))
      ensures State() == Process(Config(), old(State()), stats, now).state
      ensures outbox.sent == old(outbox.sent) + Process(Config(), old(State()), stats, now).alerts
    {
      ghost var c, s, sent := Config(), State(), outbox.sent;
      ghost var d, m, p, t := DiskSection(c, s, stats, now), MemorySection(c, s, stats, now),
                              PowerSection(c, s, stats, now), TemperatureSection(c, s, stats, now);
      TestDisks(stats, now, outbox);
      TestMemory(stats, now, outbox);
      TestPower(stats, now, outbox);
      TestTemperature(stats, now, outbox);
      AppendFour(sent, d.alerts, m.alerts, p.alerts, t.alerts);
    }

    method TestDisks(stats: Stats, now: int, outbox: Outbox)
      requires Valid()
      modifies diskTesters, diskTesters.Repr, outbox
      ensures Valid() && fresh(diskTesters.Repr - old(diskTesters.Repr))
      ensures var r := DiskSection(Config(), old(State()), stats, now);
        State() == old(State()).(disks := r.states) && outbox.sent == old(outbox.sent) + r.alerts
    {
      if stats.disks.Some? {
        diskTesters.Test(stats.disks.value, now, outbox);
      }
      assert memoryTester !in diskTesters.testers.Values && tempTester !in diskTesters.testers.Values;
    }

    method TestMemory(stats: Stats, now: int, outbox: Outbox)
      requires Valid() && WellFormed(stats)
      modifies memoryTester, outbox
      ensures Valid()
      ensures var r := MemorySection(Config(), old(State()), stats, now);
        State() == old(State()).(memory := r.state) && outbox.sent == old(outbox.sent) + r.alerts
    {
      assert memoryTester !in diskTesters.testers.Values;
      if stats.memory.Some? {
        memoryTester.Test(MemoryRatio(stats.memory.value), now, outbox);
      }
    }

    method TestPower(stats: Stats, now: int, outbox: Outbox)
      requires Valid()
      modifies powerTester, outbox
      ensures Valid()
      ensures var r := PowerSection(Config(), old(State()), stats, now);
        State() == old(State()).(power := r.state) && outbox.sent == old(outbox.sent) + r.alerts
    {
      if stats.power.Some? && |stats.power.value| != 0 {
        powerTester.Test(stats.power.value[0].status, now, outbox);
      }
    }

    method TestTemperature(stats: Stats, now: int, outbox: Outbox)
      requires Valid() && WellFormed(stats)
      modifies tempTester, outbox
      ensures Valid()
      ensures var r := TemperatureSection(Config(), old(State()), stats, now);
        State() == old(State()).(temperature := r.state) && outbox.sent == old(outbox.sent) + r.alerts
    {
      assert tempTester !in diskTesters.testers.Values;
      if stats.temperature.Some? {
        var temp := AverageCores(stats.temperature.value.cores);
        tempTester.Test(temp, now, outbox);
      }
    }
  }
}
