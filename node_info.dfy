/**
 * The Node.js process provider: RAM figures copied from `memoryUsage()`,
 * CPU usage normalized by the wall-clock time elapsed since the previous
 * poll, and the event-loop delay measured by a periodic drift probe.
 * The clock, `cpuUsage()`, `hrtime()` and `memoryUsage()` readings are
 * parameters; the interval timer is a flag saying whether one is held.
 */
module Sampler {
  import opened Info

  /** `process.hrtime()`: [seconds, nanoseconds]. */
  datatype HrTime = HrTime(seconds: int, nanoseconds: int)

  /** `process.cpuUsage()`: cumulative user and system CPU time, in microseconds. */
  datatype CpuUsage = CpuUsage(user: int, system: int)

  /** The same two fields, as CPU seconds per elapsed second. */
  datatype CpuUsageNormalized = CpuUsageNormalized(user: real, system: real)

  /** The fields of `process.memoryUsage()` that are reported, in bytes. */
  datatype MemoryUsage = MemoryUsage(rss: nat, heapTotal: nat, heapUsed: nat, external: nat)

  /** What `getInfo` reports. */
  datatype NodeInfoData = NodeInfoData(
    cpuSystem: real,
    cpuUser: real,
    loopDelay: real,
    ramExternal: nat,
    ramHeapTotal: nat,
    ramHeapUsed: nat,
    ramRss: nat)

  /** The probe interval, in milliseconds. */
  const EVENT_LOOP_INTERVAL: int := 10000

  /** The elapsed time, in microseconds, substituted when two polls read the same clock value. */
  const SAME_TICK_DIFF: int := 1000

  /** The names of the metrics `getInfo` reports. */
  const METRICS: set<string> := {"cpuSystem", "cpuUser", "loopDelay", "ramExternal", "ramHeapTotal", "ramHeapUsed", "ramRss"}

  /** The labels `getDescription` gives the metrics. */
  const CPU_SYSTEM_LABEL := "CPU system seconds since last sample. May be > 1 on multiple cores."
  const CPU_USER_LABEL := "CPU user seconds since last sample. May be > 1 on multiple cores."
  const LOOP_DELAY_LABEL := "The delay of the Node.JS event loop"
  const RAM_EXTERNAL_LABEL := "C++ memory bound to V8 JS objects"
  const RAM_HEAP_TOTAL_LABEL := "V8 Total heap"
  const RAM_HEAP_USED_LABEL := "V8 Used heap"
  const RAM_RSS_LABEL := "Resident Set Size (heap, code segment, stack)"

  /** The zeroed `info` of the constructor. */
  const ZERO_INFO := NodeInfoData(0.0, 0.0, 0.0, 0, 0, 0, 0)

  /** `(ts1 - ts0) || 1E3`: the elapsed microseconds, never 0. */
  function TsDiff(ts0: int, ts1: int): (d: int)
    ensures d != 0
    ensures ts1 != ts0 ==> d == ts1 - ts0
    ensures ts1 == ts0 ==> d == SAME_TICK_DIFF
    ensures ts0 <= ts1 ==> d > 0
  {
    if ts1 - ts0 != 0 then ts1 - ts0 else SAME_TICK_DIFF
  }

  /** The CPU time consumed between two readings per microsecond elapsed between their polls. */
  function Normalize(reading0: CpuUsage, ts0: int, reading1: CpuUsage, ts1: int): CpuUsageNormalized
  {
    var tsDiff := TsDiff(ts0, ts1) as real;
    CpuUsageNormalized(
      (reading1.user - reading0.user) as real / tsDiff,
      (reading1.system - reading0.system) as real / tsDiff)
  }

  /**
   * Normalizing is dividing by the elapsed time: scaled back by that time,
   * each field gives the CPU time consumed between the two readings.
   */
  lemma NormalizeIsRate(reading0: CpuUsage, ts0: int, reading1: CpuUsage, ts1: int)
    ensures var r := Normalize(reading0, ts0, reading1, ts1);
      var tsDiff := TsDiff(ts0, ts1) as real;
      && r.user * tsDiff == (reading1.user - reading0.user) as real
      && r.system * tsDiff == (reading1.system - reading0.system) as real
  {
  }

  /** Two polls within one clock tick are taken as one millisecond apart. */
  lemma NormalizeSameTick(reading0: CpuUsage, ts: int, reading1: CpuUsage)
    ensures Normalize(reading0, ts, reading1, ts)
            == CpuUsageNormalized((reading1.user - reading0.user) as real / 1000.0,
                                  (reading1.system - reading0.system) as real / 1000.0)
  {
  }

  /** With a clock and CPU counters that do not go back, both normalized values are non-negative. */
  lemma NormalizeNonNegative(reading0: CpuUsage, ts0: int, reading1: CpuUsage, ts1: int)
    requires ts0 <= ts1
    requires reading0.user <= reading1.user && reading0.system <= reading1.system
    ensures Normalize(reading0, ts0, reading1, ts1).user >= 0.0
    ensures Normalize(reading0, ts0, reading1, ts1).system >= 0.0
  {
    var d := TsDiff(ts0, ts1) as real;
    assert d > 0.0;
    assert (reading1.user - reading0.user) as real >= 0.0;
    assert (reading1.system - reading0.system) as real >= 0.0;
  }

  /** The probe's delay: elapsed milliseconds between two hrtime readings, less the interval. */
  function LoopDelay(latestTime: HrTime, newTime: HrTime): real
  {
    (newTime.seconds - latestTime.seconds) as real * 1000.0
    + (newTime.nanoseconds - latestTime.nanoseconds) as real / 1000000.0
    - EVENT_LOOP_INTERVAL as real
  }

  /** An hrtime reading as nanoseconds on one scale. */
  function Nanoseconds(t: HrTime): int
  {
    t.seconds * 1000000000 + t.nanoseconds
  }

  /**
   * The delay is the drift of the probe: the elapsed time on the nanosecond
   * scale, in milliseconds, minus the nominal interval. It is 0 exactly when
   * one interval has elapsed, positive exactly when the probe ran late, and
   * grows with the actual elapsed time.
   */
  lemma LoopDelayIsDrift(t0: HrTime, t1: HrTime, t2: HrTime)
    ensures LoopDelay(t0, t1) == (Nanoseconds(t1) - Nanoseconds(t0)) as real / 1000000.0 - EVENT_LOOP_INTERVAL as real
    ensures LoopDelay(t0, t1) == 0.0 <==> Nanoseconds(t1) - Nanoseconds(t0) == EVENT_LOOP_INTERVAL * 1000000
    ensures LoopDelay(t0, t1) > 0.0 <==> Nanoseconds(t1) - Nanoseconds(t0) > EVENT_LOOP_INTERVAL * 1000000
    ensures Nanoseconds(t1) <= Nanoseconds(t2) ==> LoopDelay(t0, t1) <= LoopDelay(t0, t2)
    ensures Nanoseconds(t1) < Nanoseconds(t2) ==> LoopDelay(t0, t1) < LoopDelay(t0, t2)
  {
    var e1 := (Nanoseconds(t1) - Nanoseconds(t0)) as real;
    assert e1 == (t1.seconds - t0.seconds) as real * 1000000000.0 + (t1.nanoseconds - t0.nanoseconds) as real;
    assert LoopDelay(t0, t1) == e1 / 1000000.0 - 10000.0;
    var e2 := (Nanoseconds(t2) - Nanoseconds(t0)) as real;
    assert e2 == (t2.seconds - t0.seconds) as real * 1000000000.0 + (t2.nanoseconds - t0.nanoseconds) as real;
    assert LoopDelay(t0, t2) == e2 / 1000000.0 - 10000.0;
  }

  /** What `getInfo` of a NodeInfo reports when no probe tick has happened since construction. */
  function FirstInfo(constructedMs: int, constructedCpu: CpuUsage, ram: MemoryUsage, polledMs: int, polledCpu: CpuUsage): NodeInfoData
  {
    var cpu := Normalize(constructedCpu, constructedMs * 1000, polledCpu, polledMs * 1000);
    NodeInfoData(cpu.system, cpu.user, 0.0, ram.external, ram.heapTotal, ram.heapUsed, ram.rss)
  }

  class NodeInfo {
    var info: NodeInfoData
    var latestCpu: CpuUsage
    var latestDelay: real
    /** Microseconds: the wall clock of the latest CPU poll. */
    var latestPoll: int
    var latestTime: HrTime
    /** Whether the probe interval is registered. */
    var timer: bool

    /**
     * Takes the baseline: the clock and the CPU reading at construction,
     * so that the first `getInfo` measures from here, not from zero.
     */
    constructor (hrtime: HrTime, nowMs: int, cpu: CpuUsage)
      ensures info == ZERO_INFO
      ensures latestTime == hrtime && latestPoll == nowMs * 1000 && latestCpu == cpu
      ensures latestDelay == 0.0 && timer
    {
      info := ZERO_INFO;
      latestCpu := CpuUsage(0, 0);
      latestDelay := 0.0;
      latestPoll := 0;
      latestTime := hrtime;
      timer := false;
      new;
      var baseline := PollCpuUsage(nowMs, cpu);
      StartEventLoopObserver();
    }

    static function GetDescription(): (r: InfoDescription)
      ensures r.Keys == METRICS
      ensures forall name :: name in r ==> r[name].typeName == "number"
    {
      map[
        "cpuSystem" := Description("number", CPU_SYSTEM_LABEL),
        "cpuUser" := Description("number", CPU_USER_LABEL),
        "loopDelay" := Description("number", LOOP_DELAY_LABEL),
        "ramExternal" := Description("number", RAM_EXTERNAL_LABEL),
        "ramHeapTotal" := Description("number", RAM_HEAP_TOTAL_LABEL),
        "ramHeapUsed" := Description("number", RAM_HEAP_USED_LABEL),
        "ramRss" := Description("number", RAM_RSS_LABEL)
      ]
    }

    /** Reads the RAM figures, polls the CPU and reports the latest loop delay. */
    method GetInfo(ram: MemoryUsage, nowMs: int, cpu: CpuUsage) returns (r: NodeInfoData)
      modifies this
      ensures var n := Normalize(old(latestCpu), old(latestPoll), cpu, nowMs * 1000);
        r == NodeInfoData(n.system, n.user, old(latestDelay), ram.external, ram.heapTotal, ram.heapUsed, ram.rss)
      ensures latestPoll == nowMs * 1000 && latestCpu == cpu
      ensures latestDelay == old(latestDelay) && latestTime == old(latestTime)
      ensures timer == old(timer) && info == old(info)
    {
      var normalized := PollCpuUsage(nowMs, cpu);
      var delay := PollLoop();
      r := NodeInfoData(normalized.system, normalized.user, delay, ram.external, ram.heapTotal, ram.heapUsed, ram.rss);
    }

    /** Releases the probe timer; harmless when none is held. */
    method Stop()
      modifies this
      ensures !timer
      ensures latestCpu == old(latestCpu) && latestDelay == old(latestDelay) && latestPoll == old(latestPoll)
      ensures latestTime == old(latestTime) && info == old(info)
    {
      if timer {
        timer := false;
      }
    }

    /**
     * Takes a new CPU reading at wall clock `nowMs` (milliseconds) and returns
     * the usage since the previous poll, normalized by the elapsed time.
     */
    method PollCpuUsage(nowMs: int, reading1: CpuUsage) returns (r: CpuUsageNormalized)
      modifies this
      ensures r == Normalize(old(latestCpu), old(latestPoll), reading1, nowMs * 1000)
      ensures latestPoll == nowMs * 1000 && latestCpu == reading1
      ensures latestDelay == old(latestDelay) && latestTime == old(latestTime)
      ensures timer == old(timer) && info == old(info)
    {
      var ts1 := nowMs * 1000;
      var ts0 := latestPoll;
      var tsDiff := if ts1 - ts0 != 0 then ts1 - ts0 else SAME_TICK_DIFF;
      latestPoll := ts1;
      var reading0 := latestCpu;
      latestCpu := reading1;
      r := CpuUsageNormalized(
        (reading1.user - reading0.user) as real / tsDiff as real,
        (reading1.system - reading0.system) as real / tsDiff as real);
    }

    /** The latest loop delay, without probing. */
    method PollLoop() returns (delay: real)
      ensures delay == latestDelay
    {
      delay := latestDelay;
    }

    /** Registers the probe interval. */
    method StartEventLoopObserver()
      modifies this
      ensures timer
      ensures latestCpu == old(latestCpu) && latestDelay == old(latestDelay) && latestPoll == old(latestPoll)
      ensures latestTime == old(latestTime) && info == old(info)
    {
      timer := true;
    }

    /** One run of the interval callback, reading hrtime `newTime`. */
    method Tick(newTime: HrTime)
      requires timer
      modifies this
      ensures latestDelay == LoopDelay(old(latestTime), newTime) && latestTime == newTime
      ensures latestCpu == old(latestCpu) && latestPoll == old(latestPoll)
      ensures timer == old(timer) && info == old(info)
    {
      var delay :=
        (newTime.seconds - latestTime.seconds) as real * 1000.0
        + (newTime.nanoseconds - latestTime.nanoseconds) as real / 1000000.0
        - EVENT_LOOP_INTERVAL as real;
      latestTime := newTime;
      latestDelay := delay;
    }
  }

  /** `getInfo`'s result as the `IInfoData` the aggregator reduces. */
  function ToInfoData(d: NodeInfoData): InfoData
  {
    [
      ("cpuSystem", Scalar(d.cpuSystem)),
      ("cpuUser", Scalar(d.cpuUser)),
      ("loopDelay", Scalar(d.loopDelay)),
      ("ramExternal", Scalar(d.ramExternal as real)),
      ("ramHeapTotal", Scalar(d.ramHeapTotal as real)),
      ("ramHeapUsed", Scalar(d.ramHeapUsed as real)),
      ("ramRss", Scalar(d.ramRss as real))
    ]
  }

  /** `getInfo` reports exactly the metrics the description documents. */
  lemma DataNames(d: NodeInfoData)
    ensures Names(ToInfoData(d)) == METRICS
  {
    var data := ToInfoData(d);
    var names := ["cpuSystem", "cpuUser", "loopDelay", "ramExternal", "ramHeapTotal", "ramHeapUsed", "ramRss"];
    assert forall i :: 0 <= i < 7 ==> data[i].0 == names[i];
    forall x | x in METRICS
      ensures x in Names(data)
    {
      if x == names[0] { assert data[0].0 == x; }
      else if x == names[1] { assert data[1].0 == x; }
      else if x == names[2] { assert data[2].0 == x; }
      else if x == names[3] { assert data[3].0 == x; }
      else if x == names[4] { assert data[4].0 == x; }
      else if x == names[5] { assert data[5].0 == x; }
      else { assert data[6].0 == x; }
    }
    assert names[0] in METRICS && names[1] in METRICS && names[2] in METRICS && names[3] in METRICS;
    assert names[4] in METRICS && names[5] in METRICS && names[6] in METRICS;
  }

  /** Each metric is reported once, and each is a number. */
  lemma DataWellFormed(d: NodeInfoData)
    ensures WellFormed(ToInfoData(d))
    ensures forall i :: 0 <= i < |ToInfoData(d)| ==> ToInfoData(d)[i].1.Scalar?
  {
    var data := ToInfoData(d);
    var names := ["cpuSystem", "cpuUser", "loopDelay", "ramExternal", "ramHeapTotal", "ramHeapUsed", "ramRss"];
    assert forall i :: 0 <= i < 7 ==> data[i].0 == names[i];
    assert forall i, j :: 0 <= i < j < 7 ==> names[i] != names[j] by {
      assert names[0][0] == 'c' && names[1][0] == 'c' && names[2][0] == 'l';
      assert names[0][3] == 'S' && names[1][3] == 'U';
      assert names[3][3] == 'E' && names[4][3] == 'H' && names[5][3] == 'H' && names[6][3] == 'R';
      assert names[4][7] == 'T' && names[5][7] == 'U';
    }
  }

  /**
   * The first `getInfo` after construction measures the CPU from the
   * construction-time baseline and, before any probe tick, reports a loop
   * delay of 0.
   */
  method FirstGetInfo(hrtime: HrTime, constructedMs: int, constructedCpu: CpuUsage,
                      ram: MemoryUsage, polledMs: int, polledCpu: CpuUsage) returns (d: NodeInfoData)
    ensures d == FirstInfo(constructedMs, constructedCpu, ram, polledMs, polledCpu)
    ensures d.loopDelay == 0.0
    ensures d.cpuUser * TsDiff(constructedMs * 1000, polledMs * 1000) as real == (polledCpu.user - constructedCpu.user) as real
  {
    var node := new NodeInfo(hrtime, constructedMs, constructedCpu);
    d := node.GetInfo(ram, polledMs, polledCpu);
    NormalizeIsRate(constructedCpu, constructedMs * 1000, polledCpu, polledMs * 1000);
  }

  /** Stopping twice leaves no timer and changes nothing the second time. */
  method StopTwice(node: NodeInfo)
    modifies node
    ensures !node.timer
    ensures node.latestCpu == old(node.latestCpu) && node.latestDelay == old(node.latestDelay)
    ensures node.latestPoll == old(node.latestPoll) && node.latestTime == old(node.latestTime)
    ensures node.info == old(node.info)
  {
    node.Stop();
    ghost var afterFirst := (node.latestCpu, node.latestDelay, node.latestPoll, node.latestTime, node.timer, node.info);
    node.Stop();
    assert (node.latestCpu, node.latestDelay, node.latestPoll, node.latestTime, node.timer, node.info) == afterFirst;
  }
}
