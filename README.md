# Hardware monitor alerting core, in Dafny

This project models the alerting core of a small host monitor (`index.ts`).
Every poll delivers a telemetry snapshot. The monitor reduces each section
of the snapshot to one number or one status and hands it to a tester. A
tester is a small state machine: it decides whether the sample moves it
between its normal, warning and danger conditions, and it sends at most one
alert per sample.

- `StatTesting` holds what both kinds of tester share, as the source's base
  class `StatTester` does: the recency guard `Recent`, built on the minimum
  message interval.
- `NumberTesting` holds the numeric tester, `NumberStatTester`. It is a
  hysteresis machine over `isWarning`, `isDangering` and the time of the last
  stamped alert. It is a class whose `Test` method is specified by the pure
  step function `NumberStep`; `NumberRun` folds that function over a
  sequence of samples.
- `MatchTesting` holds the match tester, `MatchStatTester`. It watches a
  single bad value (a discharging battery). Its step function is `MatchStep`
  and its run function is `MatchRun`.
- `Registry` holds `StatTesters`, which maps an identity (a filesystem) to
  its own numeric tester. A tester is created the first time its identity is
  tested and is reused afterwards. Items whose parsed value is undefined are
  skipped. The pure specification is `RegistryRun`.
- `Snapshot` holds the snapshot fields the monitor reads and the derivation
  rules: the disk identity and used share (nothing for the filesystem
  `"none"`), the memory used share, and the mean of the temperature cores.
  The mean is computed by a loop, as in the source.
- `Monitoring` holds `Monitor`, which owns the four testers the source keeps
  at module level. Its `ProcessStats` method is the poll handler and is
  specified by the pure function `Process`.
- `Alerts` holds the alert sink: an `Outbox` that records every alert in the
  order sent. `Optional` holds `Option`, which stands for `undefined`.

Time is explicit. Every `Test` takes `now: int`, and the time of the last
stamped alert is an `Option<int>`. The source's `Date.now() - lastMessaged`
is not a number while nothing has been stamped, so the comparison is false.
The recency guard is therefore modelled as `StatTesting.Recent`: a stamp
exists and `now - stamp < minMessageInterval`. The `<` is reproduced as
written. A cooldown would normally read the other way round, and the lemmas
state what the code as written does:

- A numeric tester can send "recovering" or "has recovered" only within the
  interval after a stamped alert. Only entering danger and "recovering" stamp
  one (`NumberTesting.NoRecoveryWithoutStamp`).
- A match tester never stamps anything from its initial state, so it never
  sends an alert and never records the bad value
  (`MatchTesting.FrozenWithoutStamp`, `Monitoring.PowerExample`,
  `Monitoring.LifetimeInvariants`).

The branches of the numeric tester nest as in the code. The danger level is
only compared once the sample has reached the warning level. A "recovering"
sample lowers `isDangering` and leaves `isWarning` as it was. So a tester that
went straight from normal to danger is back to neither flag after
"recovering", although the sample is in the warning band: the step does not
raise `isWarning`. Likewise, a sample below the warning level leaves
`isDangering` up whenever `isWarning` is down.

## Model

| member | source | states |
|---|---|---|
| `StatTesting.Recent` | index.ts:45 | the guard of lines 45, 53, 76 and 81: never true without a stamp; with a stamp, true exactly while `now` is before the stamp plus the interval |
| `NumberTesting.NumberStep` | index.ts:37-58 | one sample sends at most one alert; an alert is sent exactly when `isWarning` or `isDangering` changes; the stamp is either kept or set to `now` |
| `NumberTesting.NumberRun` | index.ts:37-58 | definition: one call per sample, oldest first, alerts in the order sent; its properties are the run lemmas below |
| `NumberTesting.EnteringDanger` | index.ts:38-44 | a sample at or above the danger level while not in danger raises `isDangering`, stamps `now`, sends one "too damn high" alert and leaves `isWarning` as it was |
| `NumberTesting.StayingInDanger` | index.ts:39-44 | a sample at or above the danger level while already in danger changes nothing and sends nothing |
| `NumberTesting.WarningBand` | index.ts:45-52 | in the warning band: a recent danger is lowered with a "recovering" alert and a new stamp; otherwise a tester not yet warning raises `isWarning` with "getting high" and keeps its stamp; otherwise nothing happens |
| `NumberTesting.BelowWarning` | index.ts:53-57 | below the warning level: a recent warning clears both flags with "has recovered" and keeps the stamp; anything else changes nothing; no flag is ever raised |
| `NumberTesting.StepKeepsDangerStamped` | index.ts:37-58 | whenever `isDangering` is up a stamp exists, and one call keeps this so; a stamp once set is never lost |
| `NumberTesting.RunKeepsDangerStamped` | index.ts:37-58 | the same invariant holds after any sequence of samples |
| `NumberTesting.RunAlertsBounded` | index.ts:37-58 | a sequence of samples sends at most one alert per sample |
| `NumberTesting.DangerStretchAlertsOnce` | index.ts:39-44 | a stretch of samples at or above the danger level ends in danger and sends exactly one "too damn high" alert (for its first sample) if the tester was not already in danger, and none if it was |
| `NumberTesting.StayInDanger` | index.ts:39-44 | once in danger, any number of dangerous samples change nothing and send nothing |
| `NumberTesting.QuietBelowWarning` | index.ts:53-57 | a tester that is not warning stays unchanged and silent under any samples below the warning level |
| `NumberTesting.NoRecoveryWithoutStamp` | index.ts:45-57 | with no stamp and no sample at the danger level, nothing gets stamped, the danger flag stays as it was, the warning flag never comes down and every alert sent is "getting high" |
| `NumberTesting.WorkedExample` | index.ts:37-58 | levels 0.7/0.9 and samples 0.5, 0.75, 0.95, 0.96, 0.5 send "getting high", then "too damn high", then "has recovered" only if the last sample comes within the interval of the third |
| `NumberTesting.NumberStatTester.constructor` | index.ts:26-35 | a new tester has its name and levels, both flags down and no stamp |
| `NumberTesting.NumberStatTester.Test` | index.ts:37-58 | the fields become the state `NumberStep` gives and the outbox grows by exactly its alerts |
| `MatchTesting.MatchStep` | index.ts:73-87 | one value sends at most one alert; `wasBad` flips exactly when the value is the bad value while `wasBad` is down, or another value while it is up, and the guard holds; an alert is sent exactly on a flip, it is the bad message on a flip to bad and the good message on a flip back, and it stamps `now`; without an alert nothing changes |
| `MatchTesting.MatchRun` | index.ts:73-87 | definition: one call per value, oldest first; its properties are `FrozenWithoutStamp`, `MatchRunAlertsBounded` and `AlertsAlternate` |
| `MatchTesting.FrozenWithoutStamp` | index.ts:62-86 | a match tester with no stamp (in particular a new one) stays unchanged and sends nothing whatever values it is given |
| `MatchTesting.MatchRunAlertsBounded` | index.ts:73-87 | a sequence of values sends at most one alert per value |
| `MatchTesting.AlertsAlternate` | index.ts:73-87 | the alerts of any sequence alternate between the bad and the good message, starting with the one the current state is not |
| `MatchTesting.MatchStatTester.constructor` | index.ts:61-71 | a new match tester has its bad value and messages, `wasBad` down and no stamp |
| `MatchTesting.MatchStatTester.Test` | index.ts:73-87 | the fields become the state `MatchStep` gives and the outbox grows by exactly its alerts |
| `Registry.Visit` | index.ts:109-114 | testing under one identity adds that identity and leaves every other tester as it was; the tester under it (a new one in the initial state if the identity is new) takes one step with the value, and its alerts are the only ones sent |
| `Registry.RegistryRun` | index.ts:102-116 | definition: the items in order, each skipped when its value is undefined and otherwise visited under its identity; its properties are the four lemmas below |
| `Registry.SamplesOf` | index.ts:103-114 | definition: the values of the non-skipped items carrying one identity, in order |
| `Registry.RunPerIdentity` | index.ts:102-116 | each identity's tester sees exactly its own values: after a call, the tester under an identity is its old tester (a new one in the initial state if there was none) run over that identity's samples |
| `Registry.RunKeys` | index.ts:102-116 | after a call the identities with a tester are exactly the old ones plus those of the items whose value is defined; a skipped item adds none |
| `Registry.RunLeavesOthers` | index.ts:102-116 | a tester whose identity no tested item carries is left as it was |
| `Registry.RunAlertsBounded` | index.ts:102-116 | a call sends at most one alert per item |
| `Registry.StatTesters.constructor` | index.ts:90-100 | a new registry has its levels, identifier and parser and no testers |
| `Registry.StatTesters.Test` | index.ts:102-116 | the testers' states become those `RegistryRun` gives, the outbox grows by its alerts, an existing tester object is kept under its identity and every identity that was not there before has a freshly created tester, so no two identities share one |
| `Registry.StatTesters.TestOne` | index.ts:109-114 | looks up or creates the tester for one identity and tests the value with it; the states become those `Visit` gives and no other tester object changes |
| `Registry.StatTesters.Acquire` | index.ts:109-113 | returns the tester kept under the identity, or a fresh one in the initial state that is now kept under it; the other testers, objects and states, are unchanged |
| `Snapshot.DiskId` | index.ts:123 | the key of a disk is its filesystem; it is `"none"` exactly when the disk's value is undefined |
| `Snapshot.DiskValue` | index.ts:124-131 | the parsed disk value is undefined exactly when the filesystem is `"none"`; otherwise it is the used share, `value * (used + free) == used`, and lies in [0, 1] for non-negative sizes |
| `Snapshot.MemoryRatio` | index.ts:148 | the memory value times the total is the used amount, and lies in [0, 1] when 0 <= used <= total |
| `Snapshot.AverageCores` | index.ts:154-158 | the loop that adds up the cores and divides by their count computes `Mean(cores)` |
| `Snapshot.SumBounds` | index.ts:154-157 | readings between two bounds add up to between the bounds times their count |
| `Snapshot.MeanBetween` | index.ts:154-158 | the tested temperature lies between the coolest and the hottest core |
| `Snapshot.Sum` | index.ts:154-157 | definition: the readings added up front to back, as the loop does |
| `Snapshot.Mean` | index.ts:154-158 | the mean times the number of cores is their sum |
| `Snapshot.MeanExample` | index.ts:154-158 | cores 40, 50, 60 give exactly 50 |
| `Monitoring.AbsentSectionsSkipped` | index.ts:143-161 | an absent section, or an empty list of batteries, leaves its tester as it was; an empty snapshot changes nothing and sends nothing |
| `Monitoring.ProcessAlertsBounded` | index.ts:143-161 | a poll sends at most one alert per disk plus one for each of memory, power and temperature |
| `Monitoring.OnlyFirstBatteryCounts` | index.ts:150-152 | batteries after the first make no difference to the outcome of a poll |
| `Monitoring.PowerExample` | index.ts:133 | the power tester fed charging, discharging, discharging, charging from its initial state sends nothing and stays initial |
| `Monitoring.TemperatureExample` | index.ts:153-160 | a snapshot whose only section is cores 40, 50, 60 tests the temperature tester with 50 and changes nothing else |
| `Monitoring.NoTesterForNone` | index.ts:123-131 | a poll never creates a disk tester for the filesystem `"none"` |
| `Monitoring.LifetimeInvariants` | index.ts:143-161 | over any sequence of polls from the initial state, `"none"` never gets a disk tester and the power tester never changes, so power alerts are never sent |
| `Monitoring.Monitor.constructor` | index.ts:119-134 | builds the RAM tester, the disk registry (identity = filesystem, value = used share), the power tester on `Discharging` with its two messages, and the temperature tester, all in their initial states |
| `Monitoring.DiskSection` | index.ts:144-146 | definition: the disks section, when present, runs through the registry with the filesystem as identity and the used share as value |
| `Monitoring.MemorySection` | index.ts:147-149 | definition: the memory section, when present, is one step of the RAM tester with the used share |
| `Monitoring.PowerSection` | index.ts:150-152 | definition: a non-empty battery list is one step of the power tester with the first status |
| `Monitoring.TemperatureSection` | index.ts:153-160 | definition: the temperature section, when present, is one step of the temperature tester with the mean of the cores |
| `Monitoring.Process` | index.ts:143-161 | definition: the four sections, each on its own tester, with alerts in the order disks, memory, power, temperature; its properties are the lemmas below |
| `Monitoring.MonitorRun` | index.ts:136-161 | definition: the handler over a sequence of polls, oldest first; its property is `LifetimeInvariants` |
| `Monitoring.Monitor.ProcessStats` | index.ts:143-161 | the testers' states become those `Process` gives and the outbox grows by its alerts, in the order disks, memory, power, temperature |
| `Monitoring.Monitor.TestDisks` | index.ts:144-146 | the disks section, when present, goes through the registry; nothing else changes |
| `Monitoring.Monitor.TestMemory` | index.ts:147-149 | the memory section, when present, tests its used share; nothing else changes |
| `Monitoring.Monitor.TestPower` | index.ts:150-152 | the first battery's status, when there is one, goes to the power tester; nothing else changes |
| `Monitoring.Monitor.TestTemperature` | index.ts:153-160 | the mean of the cores, when the section is present, goes to the temperature tester; nothing else changes |
| `Alerts.Outbox.Send` | index.ts:11-20 | sending appends exactly one alert to the record of sent alerts |

## Left out

- Mail delivery (index.ts:6-20): the mail client, its configuration and the logging of a failed delivery are external. Sending an alert is modelled as an append to `Outbox`.
- The text of alert bodies: the source prints the numbers into the text. The model keeps the numbers and the comparison (`Body.AtLeast`, `Body.Below`, `Body.Blank`) and does not render them.
- The poll driver (index.ts:136-140): registration with the stat-collection library, the poll frequency and the error handler. `Monitor.ProcessStats` is the handler it calls.
- The clock: `Date.now()` becomes the parameter `now`.
- The computation of the interval (index.ts:23): it builds a date from an environment variable. Every tester takes the interval as an integer instead, and the monitor passes the same value to all of them, as the source's one static field does.
- Environment variables and `Number.parseFloat`: thresholds are parameters, and disk `used`/`free` are already numbers (`real`).
- IEEE not-a-number and infinite values are not modelled. A comparison with such a value is false in the source, and such a value can reach a tester.
- IEEE rounding is not modelled: samples, the disk share `used / (used + free)`, the memory share `used / total` and the running sum and mean of the cores (index.ts:129, 148, 156-158) are exact `real` values. A value that lies on a threshold in the model can fall on the other side of it in the source, and the reverse.
- Snapshot.DiskValue: takes only a `MeasuredDisk`, a disk whose used and free sizes do not add up to zero unless its filesystem is `"none"`; the source divides by zero there.
- Snapshot.MemoryRatio: requires a non-zero total, because the source would divide by zero.
- Snapshot.AverageCores: requires at least one core, because the source would divide by zero.
- Monitoring.Monitor.ProcessStats: requires a well-formed snapshot (non-zero memory total, at least one core) for the same reasons.
- The type-only interface declarations (index.ts:164-374): only the snapshot fields the handler reads are kept.
- other_modules/core.ts (a job scheduler with a push-notification fallback) is not part of this model: it is timers, a foreign push service and file output.
- Delivery order and failures: sending is asynchronous (index.ts:12-19), so mails can arrive in an order different from the calls, and a failed send is only logged. The outbox records the order in which alerts are sent, not the order in which they arrive.
