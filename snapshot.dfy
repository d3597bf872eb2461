/**
 * One polled telemetry snapshot, reduced to the fields the monitor reads,
 * and the rules that pull the tested numbers out of it.
 */
module Snapshot {
  import opened Optional

  /** A mounted filesystem; `used` and `free` are already parsed to numbers. */
  datatype Disk = Disk(filesystem: string, used: real, free: real)

  datatype Memory = Memory(used: real, total: real)

  datatype BatteryStatus = Charging | Discharging

  datatype Battery = Battery(status: BatteryStatus)

  datatype Temperature = Temperature(cores: seq<real>)

  /** Every section is optional: a poll may deliver only some of them. */
  datatype Stats = Stats(
    disks: Option<seq<MeasuredDisk>>,
    memory: Option<Memory>,
    power: Option<seq<Battery>>,
    temperature: Option<Temperature>)

  /** The pseudo-filesystem whose usage is never tested. */
  const Unmeasured: string := "none"

  /** A disk whose ratio has a non-zero denominator, or which is skipped anyway. */
  predicate Measurable(d: Disk) {
    d.filesystem == Unmeasured || d.used + d.free != 0.0
  }

  type MeasuredDisk = d: Disk | Measurable(d) witness Disk(Unmeasured, 0.0, 0.0)

  /** The key under which a disk's tester is kept. */
  function DiskId(d: MeasuredDisk): (r: string)
    // the key of a disk is `"none"` exactly when its value is undefined, so no tester is ever kept under it
    ensures r == Unmeasured <==> DiskValue(d).None?
  {
    d.filesystem
  }

  /** The tested disk usage: the used share of the disk, or nothing for "none". */
  function DiskValue(d: MeasuredDisk): (r: Option<real>)
    ensures r.None? <==> d.filesystem == Unmeasured
    ensures r.Some? ==> r.value * (d.used + d.free) == d.used
    ensures r.Some? && 0.0 <= d.used && 0.0 <= d.free ==> 0.0 <= r.value <= 1.0
  {
    if d.filesystem == Unmeasured then None
    else
      ShareWithin(d.used, d.free);
      Some(d.used / (d.used + d.free))
  }

  /** Of two non-negative parts, the first is a share of the whole between 0 and 1. */
  lemma ShareWithin(part: real, rest: real)
    requires part + rest != 0.0
    ensures 0.0 <= part && 0.0 <= rest ==> 0.0 <= part / (part + rest) <= 1.0
  {
    if 0.0 <= part && 0.0 <= rest {
      var whole := part + rest;
      var q := part / whole;
      assert q * whole == part;
    }
  }

  /** The tested memory usage: the used share of the total. */
  function MemoryRatio(m: Memory): (r: real)
    requires m.total != 0.0
    ensures r * m.total == m.used
    ensures 0.0 <= m.used <= m.total ==> 0.0 <= r <= 1.0
  {
    m.used / m.total
  }

  /** The sum of the readings, added up front to back. */
  function Sum(s: seq<real>): real
    decreases |s|
  {
    if s == [] then 0.0 else Sum(s[..|s| - 1]) + s[|s| - 1]
  }

  /** The arithmetic mean of the core readings. */
  function Mean(cores: seq<real>): (r: real)
    requires cores != []
    ensures r * |cores| as real == Sum(cores)
  {
    Sum(cores) / |cores| as real
  }

  /** Accumulates the readings in a loop and divides by their count. */
  method AverageCores(cores: seq<real>) returns (temp: real)
    requires cores != []
    ensures temp == Mean(cores)
  {
    temp := 0.0;
    for i := 0 to |cores|
      invariant temp == Sum(cores[..i])
    {
      assert cores[..i + 1][..i] == cores[..i];
      temp := temp + cores[i];
    }
    assert cores[..|cores|] == cores;
    temp := temp / |cores| as real;
  }

  /** Readings between two bounds sum to between the bounds times their count. */
  lemma {:induction false} SumBounds(s: seq<real>, lo: real, hi: real)
    requires forall i | 0 <= i < |s| :: lo <= s[i] <= hi
    ensures lo * |s| as real <= Sum(s) <= hi * |s| as real
    decreases |s|
  {
    if s != [] {
      SumBounds(s[..|s| - 1], lo, hi);
    }
  }

  /** The mean lies between the coolest and the hottest core. */
  lemma MeanBetween(cores: seq<real>, lo: real, hi: real)
    requires cores != []
    requires forall i | 0 <= i < |cores| :: lo <= cores[i] <= hi
    ensures lo <= Mean(cores) <= hi
  {
    SumBounds(cores, lo, hi);
    var n := |cores| as real;
    var q := Mean(cores);
    assert q * n == Sum(cores);
    assert (q - lo) * n == Sum(cores) - lo * n;
    assert (hi - q) * n == hi * n - Sum(cores);
    NonNegativeFactor(q - lo, n);
    NonNegativeFactor(hi - q, n);
  }

  /** A product that is not negative, with a positive factor, has a non-negative other factor. */
  lemma NonNegativeFactor(x: real, n: real)
    requires n > 0.0 && x * n >= 0.0
    ensures x >= 0.0
  {
  }

  /** Cores reading 40, 50 and 60 give a tested temperature of exactly 50. */
  lemma MeanExample()
    ensures Mean([40.0, 50.0, 60.0]) == 50.0
  {
    var s := [40.0, 50.0, 60.0];
    assert s[..2][..1] == s[..1] && s[..1][..0] == [];
    assert Sum(s[..1]) == 40.0;
    assert Sum(s[..2]) == 90.0;
    assert Sum(s) == 150.0;
  }
}
