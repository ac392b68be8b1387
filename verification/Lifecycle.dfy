/** cpu/cpu.go: every interleaving of the event loop and of the monitor goroutines it spawns. */
module Lifecycle {
  import opened Prelude
  import opened Events
  import opened EventStream
  import opened Cgroup
  import opened CpuMonitor

  /** Where a monitor goroutine is: in its select, between its two reads, about to commit, about to clean, or
      returned. */
  datatype Monitor =
    | Selecting
    | Sampled(stats: Stats)
    | Ready(stats: Stats, system: I64)
    | Ending
    | Ended

  /** The critical sections that have changed the tables, in order. */
  datatype Effect =
    | Committed(who: nat, id: string, stats: Stats, system: I64)
    | Cleaned(id: string)

  datatype State = State(
    parentDone: bool,           // the context given to Start
    consumed: seq<Event>,
    account: Account,
    monitors: seq<Monitor>,     // monitor m runs under account.contexts[m]
    tables: Tables,
    log: seq<Effect>)

  /** The outcomes of GetStats: an error of the cgroup reader ends the monitor, any other only this tick. */
  datatype StatsRead = StatsOk(stats: Stats) | StatsReaderError | OtherError

  datatype Step =
    | HandleNext(event: Event)
    | CancelParent
    | Tick(m: nat, read: StatsRead)
    | ReadSystem(m: nat, system: Option<I64>)
    | CommitSample(m: nat)
    | SeeDone(m: nat)
    | CleanUp(m: nat)

  predicate Done(s: State, m: nat)
    requires m < |s.account.contexts|
  {
    s.parentDone || s.account.contexts[m].cancelled
  }

  predicate Enabled(s: State, step: Step) {
    && Sound(s.account) && |s.monitors| == |s.account.contexts|
    && match step
       case HandleNext(_) => true
       case CancelParent => true
       case Tick(m, _) => m < |s.monitors| && s.monitors[m].Selecting?
       case ReadSystem(m, _) => m < |s.monitors| && s.monitors[m].Sampled?
       case CommitSample(m) => m < |s.monitors| && s.monitors[m].Ready?
       case SeeDone(m) => m < |s.monitors| && s.monitors[m].Selecting? && Done(s, m)
       case CleanUp(m) => m < |s.monitors| && s.monitors[m].Ending?
  }

  function Move(s: State, m: nat, to: Monitor): State
    requires m < |s.monitors|
  {
    s.(monitors := s.monitors[m := to])
  }

  function Apply(s: State, step: Step): State
    requires Enabled(s, step)
  {
    match step
    case HandleNext(e) =>
      s.(consumed := s.consumed + [e], account := Handle(s.account, e),
         monitors := s.monitors + if e.action == ActionStart then [Selecting] else [])
    case CancelParent => s.(parentDone := true)
    case Tick(m, StatsOk(stats)) => Move(s, m, Sampled(stats))
    case Tick(m, StatsReaderError) => Move(s, m, Ending)
    case Tick(_, OtherError) => s
    case ReadSystem(m, None) => Move(s, m, Selecting)
    case ReadSystem(m, Some(system)) => Move(s, m, Ready(s.monitors[m].stats, system))
    case CommitSample(m) =>
      var id, stats, system := s.account.contexts[m].id, s.monitors[m].stats, s.monitors[m].system;
      Move(s, m, Selecting).(tables := Commit(s.tables, id, stats, system),
                             log := s.log + [Committed(m, id, stats, system)])
    case SeeDone(m) => Move(s, m, Ending)
    case CleanUp(m) =>
      var id := s.account.contexts[m].id;
      Move(s, m, Ended).(tables := Clean(s.tables, id), log := s.log + [Cleaned(id)])
  }

  const BEGIN := State(false, [], NO_MONITORS, [], NO_SAMPLES, [])

  predicate ValidRun(s: State, steps: seq<Step>)
    decreases |steps|
  {
    steps == [] || (Enabled(s, steps[0]) && ValidRun(Apply(s, steps[0]), steps[1..]))
  }

  function After(s: State, steps: seq<Step>): State
    requires ValidRun(s, steps)
    decreases |steps|
  {
    if steps == [] then s else After(Apply(s, steps[0]), steps[1..])
  }

  // ----- Reference: what the history of critical sections says about one container

  /** The container samples committed since the last clean of this id, oldest first. */
  function SinceClean(log: seq<Effect>, id: string): seq<Stats> {
    if log == [] then []
    else
      match Last(log)
      case Committed(_, i, stats, _) => SinceClean(Front(log), id) + if i == id then [stats] else []
      case Cleaned(i) => if i == id then [] else SinceClean(Front(log), id)
  }

  /** The system samples ever committed for this id, oldest first. */
  function SystemHistory(log: seq<Effect>, id: string): seq<I64> {
    if log == [] then []
    else
      SystemHistory(Front(log), id)
      + if Last(log).Committed? && Last(log).id == id then [Last(log).system] else []
  }

  /** The monitor whose commit left the present samples of this id. */
  function Writer(log: seq<Effect>, id: string): Option<nat> {
    if log == [] then None
    else if Last(log).id != id then Writer(Front(log), id)
    else if Last(log).Committed? then Some(Last(log).who) else None
  }

  function FromEnd<T>(s: seq<T>, n: nat, otherwise: T): T {
    if n < |s| then s[|s| - 1 - n] else otherwise
  }

  /** The tables hold, for this id, the last two samples of each history, and nothing else. */
  predicate HoldsHistory(t: Tables, log: seq<Effect>, id: string) {
    var stats, system := SinceClean(log, id), SystemHistory(log, id);
    && (id in t.currentStats <==> stats != []) && (id in t.previousStats <==> stats != [])
    && (id in t.currentSystem <==> system != []) && (id in t.previousSystem <==> system != [])
    && Get(t.currentStats, id, ZERO_STATS) == FromEnd(stats, 0, ZERO_STATS)
    && Get(t.previousStats, id, ZERO_STATS) == FromEnd(stats, 1, ZERO_STATS)
    && Get(t.currentSystem, id, 0) == FromEnd(system, 0, 0)
    && Get(t.previousSystem, id, 0) == FromEnd(system, 1, 0)
  }

  /** The writer of present samples is a monitor of this id that has not ended. */
  predicate WriterLives(s: State, id: string)
    requires |s.monitors| == |s.account.contexts|
  {
    var w := Writer(s.log, id);
    && (w.Some? <==> SinceClean(s.log, id) != [])
    && (w.Some? ==> w.value < |s.monitors| && s.account.contexts[w.value].id == id && s.monitors[w.value] != Ended)
  }

  ghost predicate Inv(s: State) {
    && s.account == HandleAll(s.consumed) && |s.monitors| == |s.account.contexts|
    && forall id: string :: HoldsHistory(s.tables, s.log, id) && WriterLives(s, id)
  }

  lemma CommitKeepsHistory(t: Tables, log: seq<Effect>, effect: Effect, id: string)
    requires HoldsHistory(t, log, id) && effect.Committed?
    ensures HoldsHistory(Commit(t, effect.id, effect.stats, effect.system), log + [effect], id)
  {
    FrontOfAppend(log, effect);
  }

  lemma CleanKeepsHistory(t: Tables, log: seq<Effect>, effect: Effect, id: string)
    requires HoldsHistory(t, log, id) && effect.Cleaned?
    ensures HoldsHistory(Clean(t, effect.id), log + [effect], id)
  {
    FrontOfAppend(log, effect);
  }

  lemma EventKeepsInv(s: State, e: Event)
    requires Inv(s) && Enabled(s, HandleNext(e))
    ensures Inv(Apply(s, HandleNext(e)))
  {
    var t := Apply(s, HandleNext(e));
    FrontOfAppend(s.consumed, e);
    assert forall m :: 0 <= m < |s.monitors| ==>
      t.monitors[m] == s.monitors[m] && t.account.contexts[m].id == s.account.contexts[m].id;
    forall id: string ensures HoldsHistory(t.tables, t.log, id) && WriterLives(t, id) {
      assert HoldsHistory(s.tables, s.log, id) && WriterLives(s, id);
    }
  }

  lemma CommitKeepsInv(s: State, m: nat)
    requires Inv(s) && Enabled(s, CommitSample(m))
    ensures Inv(Apply(s, CommitSample(m)))
  {
    var t := Apply(s, CommitSample(m));
    var effect := Last(t.log);
    FrontOfAppend(s.log, effect);
    forall id: string ensures HoldsHistory(t.tables, t.log, id) && WriterLives(t, id) {
      assert HoldsHistory(s.tables, s.log, id) && WriterLives(s, id);
      CommitKeepsHistory(s.tables, s.log, effect, id);
    }
  }

  /** The writer of another id's samples is not the monitor that cleans up. */
  lemma CleanUpKeepsWriter(s: State, m: nat, id: string)
    requires Enabled(s, CleanUp(m)) && WriterLives(s, id)
    ensures WriterLives(Apply(s, CleanUp(m)), id)
  {
    var effect := Cleaned(s.account.contexts[m].id);
    FrontOfAppend(s.log, effect);
  }

  lemma CleanUpKeepsInv(s: State, m: nat)
    requires Inv(s) && Enabled(s, CleanUp(m))
    ensures Inv(Apply(s, CleanUp(m)))
  {
    var t := Apply(s, CleanUp(m));
    forall id: string ensures HoldsHistory(t.tables, t.log, id) && WriterLives(t, id) {
      assert HoldsHistory(s.tables, s.log, id) && WriterLives(s, id);
      CleanKeepsHistory(s.tables, s.log, Cleaned(s.account.contexts[m].id), id);
      CleanUpKeepsWriter(s, m, id);
    }
  }

  lemma QuietStepKeepsInv(s: State, step: Step)
    requires Inv(s) && Enabled(s, step)
    requires step.CancelParent? || step.Tick? || step.ReadSystem? || step.SeeDone?
    ensures Inv(Apply(s, step))
  {
    var t := Apply(s, step);
    assert t.tables == s.tables && t.log == s.log && t.account == s.account && |t.monitors| == |s.monitors|;
    assert forall m :: 0 <= m < |s.monitors| ==> (t.monitors[m] == Ended <==> s.monitors[m] == Ended);
    forall id: string ensures HoldsHistory(t.tables, t.log, id) && WriterLives(t, id) {
      assert HoldsHistory(s.tables, s.log, id) && WriterLives(s, id);
    }
  }

  lemma StepKeepsInv(s: State, step: Step)
    requires Inv(s) && Enabled(s, step)
    ensures Inv(Apply(s, step))
  {
    match step
    case HandleNext(e) => EventKeepsInv(s, e);
    case CommitSample(m) => CommitKeepsInv(s, m);
    case CleanUp(m) => CleanUpKeepsInv(s, m);
    case _ => QuietStepKeepsInv(s, step);
  }

  lemma {:induction false} RunKeepsInv(s: State, steps: seq<Step>)
    requires Inv(s) && ValidRun(s, steps)
    ensures Inv(After(s, steps))
    decreases |steps|
  {
    if steps != [] {
      StepKeepsInv(s, steps[0]);
      RunKeepsInv(Apply(s, steps[0]), steps[1..]);
    }
  }

  // ----- What every run guarantees

  /** No leaked statistics, whatever the interleaving and however Starts repeat or arrive late: present
      statistics of an id were written by a monitor of that id that is still alive. */
  lemma PresentStatsHaveLiveWriter(steps: seq<Step>, id: string)
    requires ValidRun(BEGIN, steps)
    ensures var s := After(BEGIN, steps);
      && |s.monitors| == |s.account.contexts|
      && (id in s.tables.currentStats || id in s.tables.previousStats ==>
            var w := Writer(s.log, id);
            && w.Some? && w.value < |s.monitors|
            && s.account.contexts[w.value].id == id && s.monitors[w.value] != Ended)
  {
    RunKeepsInv(BEGIN, steps);
    var s := After(BEGIN, steps);
    assert HoldsHistory(s.tables, s.log, id) && WriterLives(s, id);
  }

  /** Once every monitor of an id has ended, by cancellation or by a cgroup error, the id is in neither map
      and its usage is zero. */
  lemma EndedMonitorsLeaveNothing(steps: seq<Step>, id: string, numCPU: nat)
    requires ValidRun(BEGIN, steps)
    requires var s := After(BEGIN, steps);
      forall m :: 0 <= m < |s.monitors| && m < |s.account.contexts| && s.account.contexts[m].id == id ==>
        s.monitors[m] == Ended
    ensures var t := After(BEGIN, steps).tables;
      id !in t.currentStats && id !in t.previousStats && ContainerUsage(numCPU, t, id) == 0
  {
    PresentStatsHaveLiveWriter(steps, id);
  }

  /** The usage formula on the two histories of an id. */
  function UsageOfHistory(numCPU: nat, stats: seq<Stats>, system: seq<I64>): int {
    if stats == [] then 0
    else Percents(numCPU,
                  Delta(FromEnd(stats, 0, ZERO_STATS).cpuUsage, FromEnd(stats, 1, ZERO_STATS).cpuUsage),
                  Delta(FromEnd(system, 0, 0), FromEnd(system, 1, 0)))
  }

  /** History refinement: in every reachable state, with any number of monitors per id, the four maps hold the
      last two container samples since the last clean and the last two system samples ever, the domains agree
      in pairs, and the reported usage is a function of those histories alone. */
  lemma TablesRefineHistory(steps: seq<Step>, id: string, numCPU: nat)
    requires ValidRun(BEGIN, steps)
    ensures var s := After(BEGIN, steps);
      && HoldsHistory(s.tables, s.log, id)
      && s.tables.currentStats.Keys == s.tables.previousStats.Keys
      && s.tables.currentSystem.Keys == s.tables.previousSystem.Keys
      && s.tables.currentStats.Keys <= s.tables.currentSystem.Keys
      && ContainerUsage(numCPU, s.tables, id) == UsageOfHistory(numCPU, SinceClean(s.log, id), SystemHistory(s.log, id))
  {
    RunKeepsInv(BEGIN, steps);
    var s := After(BEGIN, steps);
    forall i: string
      ensures i in s.tables.currentStats <==> i in s.tables.previousStats
      ensures i in s.tables.currentSystem <==> i in s.tables.previousSystem
      ensures i in s.tables.currentStats ==> i in s.tables.currentSystem
    {
      assert HoldsHistory(s.tables, s.log, i);
      CleanedHistoryIsShorter(s.log, i);
    }
    assert HoldsHistory(s.tables, s.log, id);
  }

  lemma {:induction false} CleanedHistoryIsShorter(log: seq<Effect>, id: string)
    ensures |SinceClean(log, id)| <= |SystemHistory(log, id)|
  {
    if log != [] {
      CleanedHistoryIsShorter(Front(log), id);
    }
  }

  /** Cancellation accounting in every reachable state: cancels holds the running containers, and the monitors
      of an id that were never cancelled are its Starts minus the Stops that found an entry. */
  lemma CancellationAccounting(steps: seq<Step>, id: string)
    requires ValidRun(BEGIN, steps)
    ensures var s := After(BEGIN, steps);
      && (id in s.account.cancels <==> Running(s.consumed, id))
      && Spawned(s.account.contexts, id) == CountStarts(s.consumed, id)
      && Uncancelled(s.account.contexts, id) == CountStarts(s.consumed, id) - EffectiveStops(s.consumed, id)
      && (Alternates(s.consumed, id) ==>
            Uncancelled(s.account.contexts, id) == if Running(s.consumed, id) then 1 else 0)
  {
    RunKeepsInv(BEGIN, steps);
    var s := After(BEGIN, steps);
    CancelsAreRunning(s.consumed, id);
    Accounting(s.consumed, id);
    NoRepeatsIffAlternates(s.consumed, id);
  }
}
