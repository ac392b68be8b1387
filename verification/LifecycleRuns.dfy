/** cpu/cpu.go: what a run of the event loop and its monitors says about the steps taken, told from the steps
    alone: which events were handled, where every monitor is, why it ended, and what was committed. */
module LifecycleRuns {
  import opened Prelude
  import opened Events
  import opened EventStream
  import opened Cgroup
  import opened CpuMonitor
  import opened Lifecycle

  lemma {:induction false} LastStep(s: State, steps: seq<Step>)
    requires steps != [] && ValidRun(s, steps)
    ensures ValidRun(s, Front(steps)) && Enabled(After(s, Front(steps)), Last(steps))
    ensures After(s, steps) == Apply(After(s, Front(steps)), Last(steps))
    decreases |steps|
  {
    if |steps| > 1 {
      LastStep(Apply(s, steps[0]), steps[1..]);
      assert Front(steps)[0] == steps[0] && Front(steps)[1..] == Front(steps[1..]);
    } else {
      assert Front(steps) == [] && steps[1..] == [];
    }
  }

  lemma {:induction false} RunSnoc(s: State, steps: seq<Step>, step: Step)
    requires ValidRun(s, steps) && Enabled(After(s, steps), step)
    ensures ValidRun(s, steps + [step]) && After(s, steps + [step]) == Apply(After(s, steps), step)
    decreases |steps|
  {
    if steps == [] {
      assert steps + [step] == [step];
    } else {
      assert (steps + [step])[1..] == steps[1..] + [step];
      RunSnoc(Apply(s, steps[0]), steps[1..], step);
    }
  }

  // ----- What the steps say

  function HandledBy(step: Step): seq<Event> {
    if step.HandleNext? then [step.event] else []
  }

  /** The events the loop has handled. */
  function Handled(steps: seq<Step>): seq<Event> {
    if steps == [] then [] else Handled(Front(steps)) + HandledBy(Last(steps))
  }

  /** Whether the step belongs to the goroutine of this monitor. */
  predicate Owns(m: nat, step: Step) {
    match step
    case HandleNext(_) => false
    case CancelParent => false
    case Tick(n, _) => n == m
    case ReadSystem(n, _) => n == m
    case CommitSample(n) => n == m
    case SeeDone(n) => n == m
    case CleanUp(n) => n == m
  }

  /** The steps of one monitor. */
  function Own(steps: seq<Step>, m: nat): seq<Step> {
    if steps == [] then []
    else Own(Front(steps), m) + if Owns(m, Last(steps)) then [Last(steps)] else []
  }

  predicate EndsWith(steps: seq<Step>, a: Step) {
    steps != [] && Last(steps) == a
  }

  predicate EndsWithTwo(steps: seq<Step>, a: Step, b: Step) {
    |steps| >= 2 && steps[|steps| - 2] == a && Last(steps) == b
  }

  /** A failed read other than a cgroup error, and a commit, bring a monitor back to its select. */
  predicate ComesBack(step: Step, m: nat) {
    step == Tick(m, OtherError) || step == ReadSystem(m, None) || step == CommitSample(m)
  }

  /** Where the last steps of a monitor have left it. */
  predicate IsAt(own: seq<Step>, m: nat, at: Monitor) {
    match at
    case Selecting => own == [] || ComesBack(Last(own), m)
    case Sampled(stats) => EndsWith(own, Tick(m, StatsOk(stats)))
    case Ready(stats, system) => EndsWithTwo(own, Tick(m, StatsOk(stats)), ReadSystem(m, Some(system)))
    case Ending => EndsWith(own, Tick(m, StatsReaderError)) || EndsWith(own, SeeDone(m))
    case Ended => EndsWith(own, CleanUp(m))
  }

  /** The monitor has taken these steps and is where they have left it; a number beyond the spawned monitors
      has taken none. */
  predicate Tracks(s: State, m: nat, own: seq<Step>) {
    && Sound(s.account) && |s.monitors| == |s.account.contexts|
    && if m < |s.monitors| then IsAt(own, m, s.monitors[m]) else own == []
  }

  lemma OwnStepTracks(s: State, step: Step, m: nat, own: seq<Step>)
    requires Enabled(s, step) && Tracks(s, m, own) && Owns(m, step)
    ensures Tracks(Apply(s, step), m, own + [step])
  {
    FrontOfAppend(own, step);
    assert own != [] ==> (own + [step])[|own| - 1] == Last(own);
  }

  lemma OtherStepTracks(s: State, step: Step, m: nat, own: seq<Step>)
    requires Enabled(s, step) && Tracks(s, m, own) && !Owns(m, step)
    ensures Tracks(Apply(s, step), m, own)
  {
  }

  lemma StepTracks(s: State, step: Step, m: nat, own: seq<Step>)
    requires Enabled(s, step) && Tracks(s, m, own)
    ensures Tracks(Apply(s, step), m, own + if Owns(m, step) then [step] else [])
  {
    if Owns(m, step) {
      OwnStepTracks(s, step, m, own);
    } else {
      OtherStepTracks(s, step, m, own);
      assert own + [] == own;
    }
  }

  /** The last steps of a monitor determine where it is. */
  lemma {:induction false} MonitorIsAt(steps: seq<Step>, m: nat)
    requires ValidRun(BEGIN, steps)
    ensures Tracks(After(BEGIN, steps), m, Own(steps, m))
  {
    if steps != [] {
      LastStep(BEGIN, steps);
      MonitorIsAt(Front(steps), m);
      StepTracks(After(BEGIN, Front(steps)), Last(steps), m, Own(Front(steps), m));
    }
  }

  /** What the event loop has done. */
  predicate LoopIs(s: State, handled: seq<Event>) {
    s.consumed == handled && s.account == HandleAll(handled)
  }

  lemma StepKeepsLoop(s: State, step: Step, handled: seq<Event>)
    requires Enabled(s, step) && LoopIs(s, handled)
    ensures LoopIs(Apply(s, step), handled + HandledBy(step))
  {
    if step.HandleNext? {
      FrontOfAppend(handled, step.event);
    } else {
      assert handled + [] == handled;
    }
  }

  /** The loop has handled the events of its steps. */
  lemma {:induction false} LoopHandles(steps: seq<Step>)
    requires ValidRun(BEGIN, steps)
    ensures LoopIs(After(BEGIN, steps), Handled(steps))
  {
    if steps != [] {
      LastStep(BEGIN, steps);
      LoopHandles(Front(steps));
      StepKeepsLoop(After(BEGIN, Front(steps)), Last(steps), Handled(Front(steps)));
    }
  }

  lemma StepKeepsParent(s: State, step: Step)
    requires Enabled(s, step)
    ensures Apply(s, step).parentDone <==> s.parentDone || step == CancelParent
  {
  }

  lemma InFrontOrLast<T>(s: seq<T>, x: T)
    requires s != []
    ensures x in s <==> x in Front(s) || x == Last(s)
  {
    assert s == Front(s) + [Last(s)];
  }

  /** The parent context is done once it was cancelled. */
  lemma {:induction false} ParentDone(steps: seq<Step>)
    requires ValidRun(BEGIN, steps)
    ensures After(BEGIN, steps).parentDone <==> CancelParent in steps
  {
    if steps != [] {
      LastStep(BEGIN, steps);
      ParentDone(Front(steps));
      StepKeepsParent(After(BEGIN, Front(steps)), Last(steps));
      InFrontOrLast(steps, CancelParent);
    }
  }

  // ----- Why a monitor ends

  predicate IsEnding(at: Monitor) {
    at.Ending? || at.Ended?
  }

  /** A monitor that is ending has had a reason to. */
  predicate HasCause(s: State, m: nat, failed: bool) {
    && |s.monitors| == |s.account.contexts|
    && (m < |s.monitors| && IsEnding(s.monitors[m]) ==> s.parentDone || s.account.contexts[m].cancelled || failed)
  }

  lemma StepKeepsCause(s: State, step: Step, m: nat, failed: bool)
    requires Enabled(s, step) && HasCause(s, m, failed)
    ensures HasCause(Apply(s, step), m, failed || step == Tick(m, StatsReaderError))
  {
  }

  /** A monitor ends only for a reason: its context or the parent's is done, or it has met a cgroup error. */
  lemma {:induction false} EndingHasCause(steps: seq<Step>, m: nat)
    requires ValidRun(BEGIN, steps)
    ensures HasCause(After(BEGIN, steps), m, Tick(m, StatsReaderError) in steps)
    ensures After(BEGIN, steps).parentDone <==> CancelParent in steps
  {
    ParentDone(steps);
    if steps != [] {
      LastStep(BEGIN, steps);
      EndingHasCause(Front(steps), m);
      StepKeepsCause(After(BEGIN, Front(steps)), Last(steps), m, Tick(m, StatsReaderError) in Front(steps));
      InFrontOrLast(steps, Tick(m, StatsReaderError));
    }
  }

  lemma EndingStays(s: State, step: Step, m: nat)
    requires Enabled(s, step) && m < |s.monitors| && IsEnding(s.monitors[m])
    ensures m < |Apply(s, step).monitors| && IsEnding(Apply(s, step).monitors[m])
  {
  }

  /** After a cgroup error a monitor is ending or has ended, for good. */
  lemma {:induction false} CgroupErrorEnds(steps: seq<Step>, m: nat)
    requires ValidRun(BEGIN, steps) && Tick(m, StatsReaderError) in steps
    ensures m < |After(BEGIN, steps).monitors| && IsEnding(After(BEGIN, steps).monitors[m])
  {
    LastStep(BEGIN, steps);
    InFrontOrLast(steps, Tick(m, StatsReaderError));
    if Last(steps) != Tick(m, StatsReaderError) {
      CgroupErrorEnds(Front(steps), m);
      EndingStays(After(BEGIN, Front(steps)), Last(steps), m);
    }
  }

  lemma EndedStays(s: State, step: Step, m: nat)
    requires Enabled(s, step) && m < |s.monitors| && s.monitors[m] == Ended
    ensures m < |Apply(s, step).monitors| && Apply(s, step).monitors[m] == Ended
  {
  }

  lemma {:induction false} CleanedUpHasEnded(steps: seq<Step>, m: nat)
    requires ValidRun(BEGIN, steps) && CleanUp(m) in steps
    ensures m < |After(BEGIN, steps).monitors| && After(BEGIN, steps).monitors[m] == Ended
  {
    LastStep(BEGIN, steps);
    InFrontOrLast(steps, CleanUp(m));
    if Last(steps) != CleanUp(m) {
      CleanedUpHasEnded(Front(steps), m);
      EndedStays(After(BEGIN, Front(steps)), Last(steps), m);
    }
  }

  /** No leaked statistics, told from the steps: once every monitor that a Start of this id spawned has cleaned
      up, the id is in neither map and its usage is zero. */
  lemma CleanedUpLeavesNothing(steps: seq<Step>, id: string, numCPU: nat)
    requires ValidRun(BEGIN, steps)
    requires var ids := StartIds(Handled(steps)); forall m :: 0 <= m < |ids| && ids[m] == id ==> CleanUp(m) in steps
    ensures var t := After(BEGIN, steps).tables;
      id !in t.currentStats && id !in t.previousStats && ContainerUsage(numCPU, t, id) == 0
  {
    var s := After(BEGIN, steps);
    LoopHandles(steps);
    ContextsAreStarts(Handled(steps));
    forall m | 0 <= m < |s.monitors| && m < |s.account.contexts| && s.account.contexts[m].id == id
      ensures s.monitors[m] == Ended
    {
      CleanedUpHasEnded(steps, m);
    }
    EndedMonitorsLeaveNothing(steps, id, numCPU);
  }

  /** Any other failure leaves the monitor able to tick again, whatever others have done since. */
  lemma OtherFailuresDoNotEnd(steps: seq<Step>, m: nat, read: StatsRead)
    requires ValidRun(BEGIN, steps)
    requires Own(steps, m) != [] && ComesBack(Last(Own(steps, m)), m)
    ensures Enabled(After(BEGIN, steps), Tick(m, read))
  {
    MonitorIsAt(steps, m);
  }

  // ----- What is committed

  /** The log is what the commits and cleans of the run amount to. Each commit carries the two readings that its
      monitor took right before it, under the id of the Start that spawned the monitor. */
  predicate Logged(steps: seq<Step>, log: seq<Effect>) {
    if steps == [] then log == []
    else
      var before := Front(steps);
      var ids := StartIds(Handled(before));
      match Last(steps)
      case CommitSample(m) =>
        && log != [] && Last(log).Committed? && Last(log).who == m && m < |ids| && Last(log).id == ids[m]
        && EndsWithTwo(Own(before, m), Tick(m, StatsOk(Last(log).stats)), ReadSystem(m, Some(Last(log).system)))
        && Logged(before, Front(log))
      case CleanUp(m) => log != [] && m < |ids| && Last(log) == Cleaned(ids[m]) && Logged(before, Front(log))
      case _ => Logged(before, log)
  }

  lemma {:induction false} LogIsLogged(steps: seq<Step>)
    requires ValidRun(BEGIN, steps)
    ensures Logged(steps, After(BEGIN, steps).log)
  {
    if steps != [] {
      LastStep(BEGIN, steps);
      LogIsLogged(Front(steps));
      LogStep(steps, After(BEGIN, Front(steps)));
    }
  }

  lemma LogStep(steps: seq<Step>, before: State)
    requires steps != [] && ValidRun(BEGIN, Front(steps)) && before == After(BEGIN, Front(steps))
    requires Enabled(before, Last(steps)) && Logged(Front(steps), before.log)
    ensures Logged(steps, Apply(before, Last(steps)).log)
  {
    match Last(steps)
    case CommitSample(m) => CommitIsLogged(steps, before, m);
    case CleanUp(m) => CleanIsLogged(steps, before, m);
    case _ =>
  }

  lemma SpawnedBy(steps: seq<Step>, m: nat)
    requires ValidRun(BEGIN, steps) && m < |After(BEGIN, steps).account.contexts|
    ensures m < |StartIds(Handled(steps))| && After(BEGIN, steps).account.contexts[m].id == StartIds(Handled(steps))[m]
  {
    LoopHandles(steps);
    ContextsAreStarts(Handled(steps));
  }

  lemma CommitIsLogged(steps: seq<Step>, before: State, m: nat)
    requires steps != [] && ValidRun(BEGIN, Front(steps)) && before == After(BEGIN, Front(steps))
    requires Last(steps) == CommitSample(m) && Enabled(before, Last(steps)) && Logged(Front(steps), before.log)
    ensures Logged(steps, Apply(before, CommitSample(m)).log)
  {
    var log := Apply(before, CommitSample(m)).log;
    FrontOfAppend(before.log, Last(log));
    SpawnedBy(Front(steps), m);
    MonitorIsAt(Front(steps), m);
  }

  lemma CleanIsLogged(steps: seq<Step>, before: State, m: nat)
    requires steps != [] && ValidRun(BEGIN, Front(steps)) && before == After(BEGIN, Front(steps))
    requires Last(steps) == CleanUp(m) && Enabled(before, Last(steps)) && Logged(Front(steps), before.log)
    ensures Logged(steps, Apply(before, CleanUp(m)).log)
  {
    var log := Apply(before, CleanUp(m)).log;
    FrontOfAppend(before.log, Last(log));
    SpawnedBy(Front(steps), m);
  }

  lemma SameSequence<T>(a: seq<T>, b: seq<T>)
    requires a != [] && b != [] && Front(a) == Front(b) && Last(a) == Last(b)
    ensures a == b
  {
    assert a == Front(a) + [Last(a)] && b == Front(b) + [Last(b)];
  }

  /** The last effect of a run that ends with a commit or a clean. */
  lemma SameEffect(steps: seq<Step>, a: seq<Effect>, b: seq<Effect>)
    requires steps != [] && (Last(steps).CommitSample? || Last(steps).CleanUp?)
    requires Logged(steps, a) && Logged(steps, b)
    ensures a != [] && b != [] && Last(a) == Last(b)
    ensures Logged(Front(steps), Front(a)) && Logged(Front(steps), Front(b))
  {
  }

  /** A run determines its log. */
  lemma {:induction false} LoggedOnce(steps: seq<Step>, a: seq<Effect>, b: seq<Effect>)
    requires Logged(steps, a) && Logged(steps, b)
    ensures a == b
  {
    if steps != [] {
      if Last(steps).CommitSample? || Last(steps).CleanUp? {
        SameEffect(steps, a, b);
        LoggedOnce(Front(steps), Front(a), Front(b));
        SameSequence(a, b);
      } else {
        LoggedOnce(Front(steps), a, b);
      }
    }
  }

  /** History refinement, told from the steps: in every run and for every id, the tables hold the last two
      container samples since the last clean and the last two system samples ever of what was read and
      committed, and usage is computed from these. */
  lemma TablesHoldReadings(steps: seq<Step>, id: string, numCPU: nat, log: seq<Effect>)
    requires ValidRun(BEGIN, steps) && Logged(steps, log)
    ensures HoldsHistory(After(BEGIN, steps).tables, log, id)
    ensures ContainerUsage(numCPU, After(BEGIN, steps).tables, id)
         == UsageOfHistory(numCPU, SinceClean(log, id), SystemHistory(log, id))
  {
    LogIsLogged(steps);
    LoggedOnce(steps, log, After(BEGIN, steps).log);
    TablesRefineHistory(steps, id, numCPU);
  }

  // ----- Nothing blocks a monitor

  lemma OneMore(steps: seq<Step>, more: seq<Step>, step: Step) returns (longer: seq<Step>)
    requires ValidRun(BEGIN, steps + more) && Enabled(After(BEGIN, steps + more), step)
    ensures longer == more + [step] && ValidRun(BEGIN, steps + longer)
    ensures After(BEGIN, steps + longer) == Apply(After(BEGIN, steps + more), step)
  {
    RunSnoc(BEGIN, steps + more, step);
    longer := more + [step];
    assert steps + more + [step] == steps + longer;
  }

  /** A monitor that is not ending can come back to its select by steps of its own. */
  lemma CanSelect(steps: seq<Step>, m: nat) returns (more: seq<Step>)
    requires ValidRun(BEGIN, steps) && m < |After(BEGIN, steps).monitors| && !IsEnding(After(BEGIN, steps).monitors[m])
    ensures ValidRun(BEGIN, steps + more) && forall step :: step in more ==> Owns(m, step)
    ensures var s, t := After(BEGIN, steps), After(BEGIN, steps + more);
      && t.account == s.account && t.parentDone == s.parentDone
      && |t.monitors| == |s.monitors| && t.monitors[m] == Selecting
  {
    MonitorIsAt(steps, m);
    more := [];
    assert steps + more == steps;
    match After(BEGIN, steps).monitors[m]
    case Selecting =>
    case Sampled(_) => more := OneMore(steps, more, ReadSystem(m, None));
    case Ready(_, _) => more := OneMore(steps, more, CommitSample(m));
  }

  /** A monitor whose context is done can always end by steps of its own. */
  lemma DoneMonitorCanEnd(steps: seq<Step>, m: nat) returns (more: seq<Step>)
    requires ValidRun(BEGIN, steps)
    requires var s := After(BEGIN, steps);
      m < |s.monitors| && m < |s.account.contexts| && (s.account.contexts[m].cancelled || CancelParent in steps)
    ensures ValidRun(BEGIN, steps + more) && forall step :: step in more ==> Owns(m, step)
    ensures m < |After(BEGIN, steps + more).monitors| && After(BEGIN, steps + more).monitors[m] == Ended
  {
    more := [];
    assert steps + more == steps;
    ParentDone(steps);
    if !IsEnding(After(BEGIN, steps).monitors[m]) {
      more := CanSelect(steps, m);
      MonitorIsAt(steps + more, m);
      more := OneMore(steps, more, SeeDone(m));
    }
    if After(BEGIN, steps + more).monitors[m].Ending? {
      MonitorIsAt(steps + more, m);
      more := OneMore(steps, more, CleanUp(m));
    }
  }

  /** A monitor that is not ending can commit any sample by steps of its own. */
  lemma LiveMonitorCanCommit(steps: seq<Step>, m: nat, stats: Stats, system: I64) returns (more: seq<Step>)
    requires ValidRun(BEGIN, steps) && m < |After(BEGIN, steps).monitors| && !IsEnding(After(BEGIN, steps).monitors[m])
    ensures ValidRun(BEGIN, steps + more) && forall step :: step in more ==> Owns(m, step)
    ensures var s := After(BEGIN, steps + more);
      && m < |s.account.contexts|
      && s.log != [] && Last(s.log) == Committed(m, s.account.contexts[m].id, stats, system)
  {
    more := CanSelect(steps, m);
    MonitorIsAt(steps + more, m);
    more := OneMore(steps, more, Tick(m, StatsOk(stats)));
    more := OneMore(steps, more, ReadSystem(m, Some(system)));
    more := OneMore(steps, more, CommitSample(m));
  }
}
