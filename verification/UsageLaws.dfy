/** cpu/cpu.go: bounds of the host and container usage, over what the kernel's counters may do. */
module UsageLaws {
  import opened Prelude
  import opened CpuStat
  import opened CpuMonitor
  import S = Smoothing

  const IDLE := 3

  // ----- Host usage

  lemma QuotientRange(n: real, x: real, q: real)
    requires n > 0.0 && x <= n && q == x / n
    ensures q <= 1.0 && (q < 0.0 <==> x < 0.0)
  {
    assert n * q == x;
    if q > 1.0 {
      S.ScaleStrict(n, 1.0, q);
    }
    if q < 0.0 {
      S.ScaleStrict(n, q, 0.0);
    }
    if x < 0.0 && q >= 0.0 {
      S.Scale(n, 0.0, q);
    }
  }

  /** Scaling two differences does not change their quotient. */
  lemma ScaledQuotient(scale: int, idle: int, sum: int, scaledIdle: int, scaledSum: int)
    requires scale > 0 && sum > 0 && scaledIdle == scale * idle && scaledSum == scale * sum
    ensures scaledSum > 0
    ensures (scaledSum as real - scaledIdle as real) / scaledSum as real == (sum as real - idle as real) / sum as real
  {
    RealOfProduct(scale, idle);
    RealOfProduct(scale, sum);
    CancelFactor(scale as real, sum as real - idle as real, sum as real,
                 scaledSum as real - scaledIdle as real, scaledSum as real);
  }

  lemma {:induction false} RealOfProduct(n: nat, x: int)
    ensures (n * x) as real == n as real * x as real
  {
    if n > 0 {
      RealOfProduct(n - 1, x);
      assert n * x == (n - 1) * x + x;
      assert n as real * x as real == (n - 1) as real * x as real + x as real;
    }
  }

  lemma CancelFactor(k: real, x: real, n: real, kx: real, kn: real)
    requires k > 0.0 && n > 0.0 && kx == k * x && kn == k * n
    ensures kn > 0.0 && kx / kn == x / n
  {
    S.ScaleStrict(k, 0.0, n);
    var q := x / n;
    assert q * n == x;
    assert q * kn == kx by {
      S.Associate(q, k, n);
      S.Associate(k, q, n);
    }
    assert kx / kn == q by {
      UniqueQuotient(q, kn, kx);
    }
  }

  lemma UniqueQuotient(q: real, n: real, x: real)
    requires n > 0.0 && q * n == x
    ensures x / n == q
  {
  }

  lemma MulOrder(scale: int, a: int, b: int)
    requires scale > 0 && a <= b
    ensures scale * a <= scale * b
  {
  }

  lemma MulDistance(scale: int, a: int, b: int)
    ensures scale * a - scale * b == scale * (a - b)
  {
  }

  /** The sample is the one read from a line with these counters. */
  predicate ReadFrom(c: SingleCPUStat, raw: seq<U64>, scale: I64) {
    |raw| == 10 && c == StatOf(c.name, raw, scale)
  }

  /** The difference of two wrapped durations is the wrapped difference: the totals may exceed 64 bits. */
  lemma DeltaOfWrapped(x: int, y: int, difference: int)
    requires difference == x - y
    ensures Delta(WrapI(x), WrapI(y)) == WrapI(difference)
  {
    var i := WrapIMultiple(x);
    var j := WrapIMultiple(y);
    WrapIShift(x - y, WrapI(x) - WrapI(y), i - j);
  }

  lemma ScaledDelta(scale: int, x: int, y: int, difference: int)
    requires difference == scale * (x - y)
    ensures Delta(WrapI(scale * x), WrapI(scale * y)) == WrapI(difference)
  {
    MulDistance(scale, x, y);
    DeltaOfWrapped(scale * x, scale * y, difference);
  }

  lemma SumDelta(c: SingleCPUStat, p: SingleCPUStat, current: seq<U64>, previous: seq<U64>, scale: I64,
                 difference: int)
    requires ReadFrom(c, current, scale) && ReadFrom(p, previous, scale)
    requires difference == scale * (Total(current) - Total(previous))
    ensures Delta(c.Sum(), p.Sum()) == WrapI(difference)
  {
    SumIsScaledTotal(c.name, current, scale);
    SumIsScaledTotal(p.name, previous, scale);
    ScaledDelta(scale, Total(current), Total(previous), difference);
  }

  lemma IdleDelta(c: SingleCPUStat, p: SingleCPUStat, current: seq<U64>, previous: seq<U64>, scale: I64,
                  difference: int)
    requires ReadFrom(c, current, scale) && ReadFrom(p, previous, scale)
    requires difference == scale * (current[IDLE] as int - previous[IDLE] as int)
    ensures Delta(c.idle, p.idle) == WrapI(difference)
  {
    DurationTimesWraps(current[IDLE], scale);
    DurationTimesWraps(previous[IDLE], scale);
    ScaledDelta(scale, current[IDLE], previous[IDLE], difference);
  }

  /** The usage for a growth of all ticks and of the idle ticks: unavailable when one of them shrank, else the
      share of the ticks that were not idle. */
  function UsageOfTicks(ticks: int, idle: int): (u: HostUsage)
    ensures u.Unavailable? <==> ticks < 0 || idle < 0
    ensures u.NotFinite? <==> ticks == 0 && idle >= 0
    ensures u.Usage? ==> u.value <= 1.0 && (u.value < 0.0 <==> ticks < idle)
  {
    if idle < 0 || ticks < 0 then Unavailable
    else if ticks == 0 then NotFinite
    else
      var n, busy := ticks as real, ticks as real - idle as real;
      QuotientRange(n, busy, busy / n);
      Usage(busy / n)
  }

  /** A growth that int64 can hold in nanoseconds. */
  predicate Fits(growth: int) {
    -0x8000_0000_0000_0000 <= growth < 0x8000_0000_0000_0000
  }

  lemma UsageOfDeltas(c: SingleCPUStat, p: SingleCPUStat, scale: int, ticks: int, idle: int,
                      sumDelta: int, idleDelta: int)
    requires scale > 0 && sumDelta == scale * ticks && idleDelta == scale * idle
    requires Delta(c.Sum(), p.Sum()) == sumDelta && Delta(c.idle, p.idle) == idleDelta
    ensures HostUsageOf(Some(c), Some(p)) == UsageOfTicks(ticks, idle)
  {
    SameSign(scale, ticks, sumDelta);
    SameSign(scale, idle, idleDelta);
    if ticks > 0 && idle >= 0 {
      ScaledQuotient(scale, idle, ticks, idleDelta, sumDelta);
    }
  }

  lemma SameSign(scale: int, x: int, scaled: int)
    requires scale > 0 && scaled == scale * x
    ensures (scaled < 0 <==> x < 0) && (scaled == 0 <==> x == 0)
  {
    if x > 0 {
      MulOrder(scale, 1, x);
    } else if x < 0 {
      MulOrder(scale, x, -1);
    }
  }

  /** Host usage in the ticks of the kernel, for any two lines and however large their totals are: only the
      growth between them has to fit. The tick scale cancels. */
  lemma HostUsageInTicks(c: SingleCPUStat, p: SingleCPUStat, current: seq<U64>, previous: seq<U64>, scale: I64,
                         ticks: int, idle: int)
    requires ReadFrom(c, current, scale) && ReadFrom(p, previous, scale) && scale > 0
    requires ticks == Total(current) - Total(previous) && idle == current[IDLE] as int - previous[IDLE] as int
    requires Fits(scale * ticks) && Fits(scale * idle)
    ensures HostUsageOf(Some(c), Some(p)) == UsageOfTicks(ticks, idle)
  {
    var sumDelta, idleDelta := scale * ticks, scale * idle;
    SumDelta(c, p, current, previous, scale, sumDelta);
    IdleDelta(c, p, current, previous, scale, idleDelta);
    UsageOfDeltas(c, p, scale, ticks, idle, sumDelta, idleDelta);
  }

  /** The ticks of a line that were not idle. */
  function Busy(raw: seq<U64>): int
    requires |raw| == 10
  {
    Total(raw) - raw[IDLE] as int
  }

  /** Exactly when a reported usage leaves [0, 1]: it never exceeds one, and it is negative if and only if the
      ticks that were not idle went backwards. */
  lemma UsageRange(c: SingleCPUStat, p: SingleCPUStat, current: seq<U64>, previous: seq<U64>, scale: I64,
                   ticks: int, idle: int)
    requires ReadFrom(c, current, scale) && ReadFrom(p, previous, scale) && scale > 0
    requires ticks == Total(current) - Total(previous) > 0 && idle == current[IDLE] as int - previous[IDLE] as int >= 0
    requires Fits(scale * ticks) && Fits(scale * idle)
    ensures var u := HostUsageOf(Some(c), Some(p));
      u.Usage? && u.value <= 1.0 && (u.value < 0.0 <==> Busy(current) < Busy(previous))
  {
    HostUsageInTicks(c, p, current, previous, scale, ticks, idle);
  }

  /** If no counter but possibly this one went backwards, it does not grow by more than all together. */
  lemma {:induction false} OthersAdvance(previous: seq<U64>, current: seq<U64>, i: nat)
    requires i < |previous| == |current|
    requires forall j :: 0 <= j < |previous| && j != i ==> previous[j] <= current[j]
    ensures current[i] - previous[i] <= Total(current) - Total(previous)
  {
    if i < |previous| - 1 {
      OthersAdvance(Front(previous), Front(current), i);
    } else {
      TotalAdvances(Front(previous), Front(current));
    }
  }

  lemma {:induction false} TotalAdvances(previous: seq<U64>, current: seq<U64>)
    requires |previous| == |current|
    requires forall j :: 0 <= j < |previous| ==> previous[j] <= current[j]
    ensures Total(previous) <= Total(current)
  {
    if previous != [] {
      TotalAdvances(Front(previous), Front(current));
    }
  }

  /** Busy ticks going backwards takes a counter other than the idle one that did. */
  lemma BusyShrinks(previous: seq<U64>, current: seq<U64>) returns (i: nat)
    requires |previous| == |current| == 10 && Busy(current) < Busy(previous)
    ensures i < 10 && i != IDLE && current[i] < previous[i]
  {
    if j: nat :| j < 10 && j != IDLE && current[j] < previous[j] {
      i := j;
    } else {
      OthersAdvance(previous, current, IDLE);
      assert false;
    }
  }

  /** No counter of a line went backwards. */
  predicate Advances(previous: seq<U64>, current: seq<U64>) {
    |previous| == |current| == 10 && forall i :: 0 <= i < 10 ==> previous[i] <= current[i]
  }

  /** When no counter goes backwards, host usage is the share of the ticks that were not idle: in [0, 1], the
      same for every positive scale, and undefined exactly when no tick passed. */
  lemma HostUsageIsBusyShare(c: SingleCPUStat, p: SingleCPUStat, current: seq<U64>, previous: seq<U64>, scale: I64,
                             ticks: int, idle: int)
    requires ReadFrom(c, current, scale) && ReadFrom(p, previous, scale) && Advances(previous, current)
    requires ticks == Total(current) - Total(previous) && idle == current[IDLE] as int - previous[IDLE] as int
    requires scale > 0 && Fits(scale * ticks)
    ensures 0 <= idle <= ticks
    ensures var u := HostUsageOf(Some(c), Some(p));
      u == UsageOfTicks(ticks, idle) && if ticks == 0 then u == NotFinite else u.Usage? && 0.0 <= u.value <= 1.0
  {
    OthersAdvance(previous, current, IDLE);
    MulOrder(scale, 0, idle);
    MulOrder(scale, idle, ticks);
    HostUsageInTicks(c, p, current, previous, scale, ticks, idle);
  }

  lemma {:induction false} TotalOfOne(raw: seq<U64>, i: nat)
    requires i < |raw| && forall j :: 0 <= j < |raw| && j != i ==> raw[j] == 0
    ensures Total(raw) == raw[i]
  {
    if i < |raw| - 1 {
      TotalOfOne(Front(raw), i);
    } else {
      TotalOfZeros(Front(raw));
    }
  }

  lemma {:induction false} TotalOfZeros(raw: seq<U64>)
    requires forall j :: 0 <= j < |raw| ==> raw[j] == 0
    ensures Total(raw) == 0
  {
    if raw != [] {
      TotalOfZeros(Front(raw));
    }
  }

  /** Such a line pair: the user time is reset while a longer idle time passes. */
  lemma ResetMakesUsageNegative(name: string, lost: U64, idled: U64)
    requires 0 < lost < idled < 0x8000_0000_0000_0000
    ensures var previous := StatOf(name, [lost, 0, 0, 0, 0, 0, 0, 0, 0, 0], 1);
      var current := StatOf(name, [0, 0, 0, idled, 0, 0, 0, 0, 0, 0], 1);
      var u := HostUsageOf(Some(current), Some(previous));
      u.Usage? && u.value < 0.0
  {
    var previous: seq<U64>, current: seq<U64> := [lost, 0, 0, 0, 0, 0, 0, 0, 0, 0], [0, 0, 0, idled, 0, 0, 0, 0, 0, 0];
    TotalOfOne(previous, 0);
    TotalOfOne(current, IDLE);
    UsageRange(StatOf(name, current, 1), StatOf(name, previous, 1), current, previous, 1, idled - lost, idled);
  }

  // ----- Container usage

  /** The reported percentage is the exact quotient of integers, rounded down. */
  lemma PercentsIsFloor(numCPU: nat, cpu: int, system: int, p: int)
    requires cpu > 0 && system > 0 && p == Percents(numCPU, cpu, system)
    ensures 0 <= p && p * system <= 100 * numCPU * cpu < (p + 1) * system
  {
    var c, s, n := cpu as real, system as real, numCPU as real;
    var r := c / s * 100.0 * n;
    PercentsNonNegative(numCPU, cpu, system);
    assert r * s == 100.0 * n * c by {
      assert c / s * s == c;
      TimesDivisor(c / s, s, c, n, r);
    }
    RealOfProduct(100 * numCPU, cpu);
    BetweenProducts(p, system, 100 * numCPU * cpu, r);
  }

  lemma BetweenProducts(p: nat, system: int, limit: int, r: real)
    requires system > 0 && p as real <= r < (p + 1) as real && r * system as real == limit as real
    ensures p * system <= limit < (p + 1) * system
  {
    S.Scale(system as real, p as real, r);
    S.ScaleStrict(system as real, r, (p + 1) as real);
    RealOfProduct(p, system);
    RealOfProduct(p + 1, system);
  }

  lemma TimesDivisor(q: real, s: real, c: real, n: real, r: real)
    requires q * s == c && r == q * 100.0 * n
    ensures r * s == 100.0 * n * c
  {
    var k := 100.0 * n;
    assert r == q * k;
    assert r * s == k * (q * s);
  }

  lemma PercentsNonNegative(numCPU: nat, cpu: int, system: int)
    ensures Percents(numCPU, cpu, system) >= 0
  {
    if cpu > 0 && system > 0 {
      var c, s, n := cpu as real, system as real, numCPU as real;
      assert c / s > 0.0;
      S.Scale(c / s * 100.0, 0.0, n);
    }
  }

  /** One container is reported within the machine exactly when its CPU time exceeds the system time by less
      than one part in 100 * numCPU. */
  lemma UsageWithinMachine(numCPU: nat, cpu: int, system: int)
    requires cpu > 0 && system > 0
    ensures Percents(numCPU, cpu, system) <= 100 * numCPU <==> 100 * numCPU * cpu < (100 * numCPU + 1) * system
  {
    var p, limit := Percents(numCPU, cpu, system), 100 * numCPU;
    PercentsIsFloor(numCPU, cpu, system, p);
    if p <= limit {
      MulOrder(system, p + 1, limit + 1);
    } else {
      MulOrder(system, limit + 1, p);
    }
  }

  /** The percentages of several containers, added up. */
  function TotalUsage(numCPU: nat, t: Tables, ids: seq<string>): int {
    if ids == [] then 0 else TotalUsage(numCPU, t, Front(ids)) + ContainerUsage(numCPU, t, Last(ids))
  }

  /** The CPU time they used, counting only growth. */
  function TotalCPU(t: Tables, ids: seq<string>): nat {
    if ids == [] then 0
    else TotalCPU(t, Front(ids)) + if CPUDelta(t, Last(ids)) > 0 then CPUDelta(t, Last(ids)) else 0
  }

  lemma OneUsage(numCPU: nat, t: Tables, id: string, system: int)
    requires system > 0 && SystemDelta(t, id) == system
    ensures var p, cpu := ContainerUsage(numCPU, t, id), if CPUDelta(t, id) > 0 then CPUDelta(t, id) else 0;
      0 <= p && p * system <= 100 * numCPU * cpu
  {
    if id in t.previousStats && CPUDelta(t, id) > 0 {
      PercentsIsFloor(numCPU, CPUDelta(t, id), system, ContainerUsage(numCPU, t, id));
    } else {
      assert ContainerUsage(numCPU, t, id) == 0;
    }
  }

  lemma AddProducts(total: int, p: int, system: int, k: int, cpus: int, cpu: int)
    requires total * system <= k * cpus && p * system <= k * cpu
    ensures (total + p) * system <= k * (cpus + cpu)
  {
  }

  lemma {:induction false} UsageBelowShare(numCPU: nat, t: Tables, ids: seq<string>, system: int)
    requires system > 0 && forall id :: id in ids ==> SystemDelta(t, id) == system
    ensures 0 <= TotalUsage(numCPU, t, ids)
    ensures TotalUsage(numCPU, t, ids) * system <= 100 * numCPU * TotalCPU(t, ids)
  {
    if ids != [] {
      var id := Last(ids);
      UsageBelowShare(numCPU, t, Front(ids), system);
      OneUsage(numCPU, t, id, system);
      AddProducts(TotalUsage(numCPU, t, Front(ids)), ContainerUsage(numCPU, t, id), system, 100 * numCPU,
                  TotalCPU(t, Front(ids)), if CPUDelta(t, id) > 0 then CPUDelta(t, id) else 0);
    }
  }

  lemma CancelSystem(total: int, limit: nat, system: int, cpus: nat)
    requires 0 < system && cpus <= system && total * system <= limit * cpus
    ensures total <= limit
  {
    if total > limit {
      MulOrder(system, limit + 1, total);
      assert false by {
        BelowProduct(limit, cpus, system);
      }
    }
  }

  lemma BelowProduct(k: nat, x: int, y: int)
    requires x <= y
    ensures k * x <= k * y
  {
  }

  /** Containers measured over the same system time, whose CPU times add up to at most that time, are together
      reported within the machine; none is ever reported negative. */
  lemma UsagesShareMachine(numCPU: nat, t: Tables, ids: seq<string>, system: int)
    requires system > 0 && forall id :: id in ids ==> SystemDelta(t, id) == system
    requires TotalCPU(t, ids) <= system
    ensures 0 <= TotalUsage(numCPU, t, ids) <= 100 * numCPU
    ensures forall id :: id in ids ==> ContainerUsage(numCPU, t, id) >= 0
  {
    UsageBelowShare(numCPU, t, ids, system);
    CancelSystem(TotalUsage(numCPU, t, ids), 100 * numCPU, system, TotalCPU(t, ids));
    forall id | id in ids ensures ContainerUsage(numCPU, t, id) >= 0 {
      OneUsage(numCPU, t, id, system);
    }
  }
}
