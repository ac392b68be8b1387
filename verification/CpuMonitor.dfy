/** cpu/cpu.go: the samples shared by all monitors and the usage computed from them. Every method is one
    critical section of cpuUsagesMutex, with what was read before taking it as a parameter. */
module CpuMonitor {
  import opened Prelude
  import opened CpuStat
  import opened Cgroup

  /** The four maps guarded by the mutex. */
  datatype Tables = Tables(
    currentStats: map<string, Stats>, previousStats: map<string, Stats>,
    currentSystem: map<string, I64>, previousSystem: map<string, I64>)

  const NO_SAMPLES := Tables(map[], map[], map[], map[])

  /** The critical section of updateContainerCPUUsage: a missing sample is read as a zero value. */
  function Commit(t: Tables, id: string, stats: Stats, system: I64): Tables {
    Tables(t.currentStats[id := stats], t.previousStats[id := Get(t.currentStats, id, ZERO_STATS)],
           t.currentSystem[id := system], t.previousSystem[id := Get(t.currentSystem, id, 0)])
  }

  /** The critical section of cleanMonitoringData: the system samples stay. */
  function Clean(t: Tables, id: string): Tables {
    t.(currentStats := t.currentStats - {id}, previousStats := t.previousStats - {id})
  }

  /** The difference of two durations. */
  function Delta(current: I64, previous: I64): I64 {
    WrapI(current as int - previous as int)
  }

  function CPUDelta(t: Tables, id: string): I64 {
    Delta(Get(t.currentStats, id, ZERO_STATS).cpuUsage, Get(t.previousStats, id, ZERO_STATS).cpuUsage)
  }

  function SystemDelta(t: Tables, id: string): I64 {
    Delta(Get(t.currentSystem, id, 0), Get(t.previousSystem, id, 0))
  }

  /** The percentage reported for two deltas; converting to int drops the fraction. */
  function Percents(numCPU: nat, cpu: int, system: int): int {
    if cpu > 0 && system > 0 then (cpu as real / system as real * 100.0 * numCPU as real).Floor else 0
  }

  function ContainerUsage(numCPU: nat, t: Tables, id: string): int {
    if id !in t.previousStats then 0 else Percents(numCPU, CPUDelta(t, id), SystemDelta(t, id))
  }

  /** Unavailable stands for the zero struct, NotFinite for the NaN or infinity of a division by zero. */
  datatype HostUsage = Unavailable | NotFinite | Usage(value: real)

  function HostUsageOf(current: Option<SingleCPUStat>, previous: Option<SingleCPUStat>): HostUsage {
    if current.None? || previous.None? then Unavailable
    else
      var sum := Delta(current.value.Sum(), previous.value.Sum());
      var idle := Delta(current.value.idle, previous.value.idle);
      if idle < 0 || sum < 0 then Unavailable
      else if sum == 0 then NotFinite
      else Usage((sum as real - idle as real) / sum as real)
  }

  /** Without growth of both times nothing is reported. */
  lemma NoGrowthNoUsage(numCPU: nat, cpu: int, system: int)
    requires cpu <= 0 || system <= 0
    ensures Percents(numCPU, cpu, system) == 0
  {
  }

  /** Host usage takes two samples. */
  lemma OneSampleIsUnavailable(sample: Option<SingleCPUStat>)
    ensures HostUsageOf(None, sample) == Unavailable && HostUsageOf(sample, None) == Unavailable
  {
  }

  class CPUUsageMonitor {
    const numCPU: nat
    var currentHostUsage: Option<SingleCPUStat>
    var previousHostUsage: Option<SingleCPUStat>
    var currentContainerStats: map<string, Stats>
    var previousContainerStats: map<string, Stats>
    var currentSystemUsage: map<string, I64>
    var previousSystemUsage: map<string, I64>

    ghost function View(): Tables
      reads this
    {
      Tables(currentContainerStats, previousContainerStats, currentSystemUsage, previousSystemUsage)
    }

    constructor (numCPU: nat)
      ensures View() == NO_SAMPLES && this.numCPU == numCPU
      ensures currentHostUsage == previousHostUsage == None
    {
      this.numCPU := numCPU;
      currentHostUsage, previousHostUsage := None, None;
      currentContainerStats, previousContainerStats := map[], map[];
      currentSystemUsage, previousSystemUsage := map[], map[];
    }

    /** A failed read of the host counters changes nothing. */
    method UpdateHostCPUUsage(reading: Option<CPUStats>)
      modifies this`currentHostUsage, this`previousHostUsage
      ensures reading.None? ==> currentHostUsage == old(currentHostUsage) && previousHostUsage == old(previousHostUsage)
      ensures reading.Some? ==> currentHostUsage == Some(All(reading.value))
      ensures reading.Some? ==> previousHostUsage == old(currentHostUsage)
    {
      if reading.Some? {
        previousHostUsage := currentHostUsage;
        currentHostUsage := Some(All(reading.value));
      }
    }

    /** Commits a sample when both reads succeeded, and otherwise changes nothing. */
    method UpdateContainerCPUUsage(id: string, stats: Option<Stats>, reading: Option<CPUStats>) returns (ok: bool)
      modifies this`currentContainerStats, this`previousContainerStats
      modifies this`currentSystemUsage, this`previousSystemUsage
      ensures ok <==> stats.Some? && reading.Some?
      ensures View() == if ok then Commit(old(View()), id, stats.value, All(reading.value).Sum()) else old(View())
    {
      if stats.None? || reading.None? {
        return false;
      }
      previousContainerStats := previousContainerStats[id := Get(currentContainerStats, id, ZERO_STATS)];
      currentContainerStats := currentContainerStats[id := stats.value];
      previousSystemUsage := previousSystemUsage[id := Get(currentSystemUsage, id, 0)];
      currentSystemUsage := currentSystemUsage[id := All(reading.value).Sum()];
      return true;
    }

    method CleanMonitoringData(id: string)
      modifies this`currentContainerStats, this`previousContainerStats
      ensures View() == Clean(old(View()), id)
    {
      currentContainerStats := currentContainerStats - {id};
      previousContainerStats := previousContainerStats - {id};
    }

    method GetContainerUsage(id: string) returns (percents: int)
      ensures percents == ContainerUsage(numCPU, View(), id)
    {
      if id !in previousContainerStats {
        return 0;
      }
      var current, previous := Get(currentContainerStats, id, ZERO_STATS), previousContainerStats[id];
      var deltaCPUUsage := Delta(current.cpuUsage, previous.cpuUsage);
      var deltaSystemCPUUsage := Delta(Get(currentSystemUsage, id, 0), Get(previousSystemUsage, id, 0));
      percents := 0;
      if deltaCPUUsage > 0 && deltaSystemCPUUsage > 0 {
        percents := (deltaCPUUsage as real / deltaSystemCPUUsage as real * 100.0 * numCPU as real).Floor;
      }
    }

    method GetHostUsage() returns (usage: HostUsage)
      ensures usage == HostUsageOf(currentHostUsage, previousHostUsage)
    {
      if previousHostUsage.None? || currentHostUsage.None? {
        return Unavailable;
      }
      var deltaSum := Delta(currentHostUsage.value.Sum(), previousHostUsage.value.Sum());
      var deltaIdled := Delta(currentHostUsage.value.idle, previousHostUsage.value.idle);
      if deltaIdled < 0 || deltaSum < 0 {
        return Unavailable;
      }
      if deltaSum == 0 {
        return NotFinite;
      }
      return Usage((deltaSum as real - deltaIdled as real) / deltaSum as real);
    }
  }
}
