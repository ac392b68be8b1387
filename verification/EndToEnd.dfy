/** The broadcaster and the CPU monitor together: the monitor's event loop consumes the channel that its
    registration put into the broadcast list. */
module EndToEnd {
  import opened Prelude
  import opened Events
  import opened EventStream
  import B = Broadcast
  import BR = BroadcastRuns
  import CpuMonitor
  import L = Lifecycle
  import LR = LifecycleRuns

  datatype State = State(repository: B.State, monitor: L.State, channel: Option<nat>)

  datatype Step =
    | Register
    | Repository(b: B.Step)
    | Monitor(l: L.Step)
    | Deliver

  predicate Enabled(s: State, step: Step) {
    match step
    case Register => s.channel.None? && B.Enabled(s.repository, B.Register)
    case Repository(b) => B.Enabled(s.repository, b) && !(b.Receive? && s.channel == Some(b.sub))
    case Monitor(l) => L.Enabled(s.monitor, l) && !l.HandleNext?
    case Deliver =>
      && s.channel.Some? && B.Enabled(s.repository, B.Receive(s.channel.value))
      && L.Enabled(s.monitor, L.HandleNext(s.repository.subs[s.channel.value].buffer[0]))
  }

  /** Taking an event out of the channel and handling it belong to the same goroutine. */
  function Apply(s: State, step: Step): State
    requires Enabled(s, step)
  {
    match step
    case Register => s.(repository := B.Apply(s.repository, B.Register), channel := Some(|s.repository.subs|))
    case Repository(b) => s.(repository := B.Apply(s.repository, b))
    case Monitor(l) => s.(monitor := L.Apply(s.monitor, l))
    case Deliver =>
      var k := s.channel.value;
      s.(repository := B.Apply(s.repository, B.Receive(k)),
         monitor := L.Apply(s.monitor, L.HandleNext(s.repository.subs[k].buffer[0])))
  }

  const BEGIN := State(B.START, L.BEGIN, None)

  predicate ValidRun(s: State, steps: seq<Step>)
    decreases |steps|
  {
    steps == [] || (Enabled(s, steps[0]) && ValidRun(Apply(s, steps[0]), steps[1..]))
  }

  function After(s: State, steps: seq<Step>): State
    requires ValidRun(s, steps)
    decreases |steps|
  {
    if steps == [] then s else After(Apply(s, steps[0]), steps[1..])
  }

  /** The event loop has handled exactly what its channel has delivered. */
  predicate Fed(s: State) {
    match s.channel
    case None => s.monitor.consumed == []
    case Some(k) => k < |s.repository.subs| && s.repository.subs[k].received == s.monitor.consumed
  }

  ghost predicate Inv(s: State) {
    B.Inv(s.repository) && L.Inv(s.monitor) && Fed(s)
  }

  /** Only its own consumer takes events out of a channel. */
  lemma OthersDoNotReceive(r: B.State, b: B.Step, k: nat)
    requires B.Enabled(r, b) && k < |r.subs| && b != B.Receive(k)
    ensures k < |B.Apply(r, b).subs| && B.Apply(r, b).subs[k].received == r.subs[k].received
  {
  }

  lemma RepositoryKeepsFed(s: State, b: B.Step)
    requires Fed(s) && Enabled(s, Repository(b))
    ensures Fed(Apply(s, Repository(b)))
  {
    if s.channel.Some? {
      OthersDoNotReceive(s.repository, b, s.channel.value);
    }
  }

  /** Any other step of the repository leaves what the event loop's channel has delivered alone. */
  lemma RepositoryKeepsInv(s: State, b: B.Step)
    requires Inv(s) && Enabled(s, Repository(b))
    ensures Inv(Apply(s, Repository(b)))
  {
    B.StepKeepsInv(s.repository, b);
    RepositoryKeepsFed(s, b);
  }

  lemma DeliverKeepsInv(s: State)
    requires Inv(s) && Enabled(s, Deliver)
    ensures Inv(Apply(s, Deliver))
  {
    B.StepKeepsInv(s.repository, B.Receive(s.channel.value));
    L.StepKeepsInv(s.monitor, L.HandleNext(s.repository.subs[s.channel.value].buffer[0]));
  }

  lemma StepKeepsInv(s: State, step: Step)
    requires Inv(s) && Enabled(s, step)
    ensures Inv(Apply(s, step))
  {
    match step
    case Register => B.StepKeepsInv(s.repository, B.Register);
    case Repository(b) => RepositoryKeepsInv(s, b);
    case Monitor(l) => L.StepKeepsInv(s.monitor, l);
    case Deliver => DeliverKeepsInv(s);
  }

  lemma {:induction false} RunKeepsInv(s: State, steps: seq<Step>)
    requires Inv(s) && ValidRun(s, steps)
    ensures Inv(After(s, steps))
    decreases |steps|
  {
    if steps != [] {
      StepKeepsInv(s, steps[0]);
      RunKeepsInv(Apply(s, steps[0]), steps[1..]);
    }
  }

  // ----- The run of each part

  lemma {:induction false} LastStep(s: State, steps: seq<Step>)
    requires steps != [] && ValidRun(s, steps)
    ensures ValidRun(s, Front(steps)) && Enabled(After(s, Front(steps)), Last(steps))
    ensures After(s, steps) == Apply(After(s, Front(steps)), Last(steps))
    decreases |steps|
  {
    if |steps| > 1 {
      LastStep(Apply(s, steps[0]), steps[1..]);
      assert Front(steps)[0] == steps[0] && Front(steps)[1..] == Front(steps[1..]);
    } else {
      assert Front(steps) == [] && steps[1..] == [];
    }
  }

  /** The steps of the repository, whose channel k the event loop consumes. */
  function RepositorySteps(steps: seq<Step>, k: nat): seq<B.Step> {
    if steps == [] then []
    else
      RepositorySteps(Front(steps), k) +
      match Last(steps)
      case Register => [B.Register]
      case Repository(b) => [b]
      case Monitor(_) => []
      case Deliver => [B.Receive(k)]
  }

  function Deliveries(steps: seq<Step>): nat {
    if steps == [] then 0 else Deliveries(Front(steps)) + if Last(steps).Deliver? then 1 else 0
  }

  /** The steps of event loop and monitors, when these are the events delivered. */
  function MonitorSteps(steps: seq<Step>, delivered: seq<Event>): seq<L.Step>
    requires Deliveries(steps) <= |delivered|
  {
    if steps == [] then []
    else
      MonitorSteps(Front(steps), delivered) +
      match Last(steps)
      case Register => []
      case Repository(_) => []
      case Monitor(l) => [l]
      case Deliver => [L.HandleNext(delivered[Deliveries(Front(steps))])]
  }

  /** The repository runs on its steps. */
  lemma {:induction false} RepositoryRuns(steps: seq<Step>, k: nat)
    requires ValidRun(BEGIN, steps) && (After(BEGIN, steps).channel.None? || After(BEGIN, steps).channel == Some(k))
    ensures B.ValidRun(B.START, RepositorySteps(steps, k))
    ensures After(BEGIN, steps).repository == B.After(B.START, RepositorySteps(steps, k))
  {
    if steps != [] {
      LastStep(BEGIN, steps);
      RepositoryRuns(Front(steps), k);
      var before := RepositorySteps(Front(steps), k);
      match Last(steps)
      case Register => BR.RunSnoc(B.START, before, B.Register);
      case Repository(b) => BR.RunSnoc(B.START, before, b);
      case Monitor(_) => assert before + [] == before;
      case Deliver => BR.RunSnoc(B.START, before, B.Receive(k));
    }
  }

  /** Event loop and monitors run on their steps. */
  lemma {:induction false} MonitorRuns(steps: seq<Step>, delivered: seq<Event>)
    requires ValidRun(BEGIN, steps) && After(BEGIN, steps).monitor.consumed <= delivered
    ensures |After(BEGIN, steps).monitor.consumed| == Deliveries(steps) <= |delivered|
    ensures L.ValidRun(L.BEGIN, MonitorSteps(steps, delivered))
    ensures After(BEGIN, steps).monitor == L.After(L.BEGIN, MonitorSteps(steps, delivered))
  {
    if steps != [] {
      LastStep(BEGIN, steps);
      var s := After(BEGIN, Front(steps)).monitor;
      assert s.consumed <= After(BEGIN, steps).monitor.consumed;
      MonitorRuns(Front(steps), delivered);
      var before := MonitorSteps(Front(steps), delivered);
      match Last(steps)
      case Register => assert before + [] == before;
      case Repository(_) => assert before + [] == before;
      case Monitor(l) => LR.RunSnoc(L.BEGIN, before, l);
      case Deliver =>
        assert After(BEGIN, steps).monitor.consumed[|s.consumed|] == delivered[|s.consumed|];
        LR.RunSnoc(L.BEGIN, before, L.HandleNext(delivered[|s.consumed|]));
    }
  }

  lemma SameSlice<T>(shorter: seq<T>, longer: seq<T>, since: nat, j: nat)
    requires shorter <= longer && since + j <= |shorter|
    ensures shorter[since..][..j] == longer[since..][..j]
  {
  }

  /** What a consumer has received interleaves a prefix of the listing with a prefix of the events broadcast
      since its registration; the rest of what was sent is still in the channel. */
  lemma ReceivedInOrder(sub: B.Subscriber, offered: seq<Event>, live: seq<Event>) returns (i: nat, j: nat)
    requires B.InOrder(sub, offered) && offered <= live
    ensures i <= |B.Pushed(sub)| && sub.since + j <= |offered|
    ensures Interleaves(sub.received, B.Pushed(sub)[..i], live[sub.since..][..j])
    ensures (|B.Pushed(sub)| - i) + (|offered| - sub.since - j) == |sub.buffer|
  {
    var pushed, since := B.Pushed(sub), offered[sub.since..];
    i, j := InterleavesPrefix(B.Sent(sub), pushed, since, |sub.received|);
    assert B.Sent(sub)[..|sub.received|] == sub.received;
    InterleavesLength(B.Sent(sub), pushed, since);
    InterleavesLength(sub.received, pushed[..i], since[..j]);
    SameSlice(offered, live, sub.since, j);
  }

  /** One if the loop has the latest event still to send to this subscriber. */
  function Unsent(repository: B.State, k: nat): nat {
    if repository.broadcaster.Sending? && k >= repository.broadcaster.next then 1 else 0
  }

  /** In every reachable state, what the event loop has handled interleaves a prefix of its listing with a
      prefix of the events broadcast since its registration. Nothing is lost on the way: outstanding are exactly
      the event in the channel and the one the loop has still to send, so at most two. */
  lemma HandledInOrder(steps: seq<Step>) returns (i: nat, j: nat)
    requires ValidRun(BEGIN, steps) && After(BEGIN, steps).channel.Some?
    ensures var s := After(BEGIN, steps);
      var k := s.channel.value;
      && k < |s.repository.subs|
      && var sub := s.repository.subs[k];
      && B.ListerOk(sub) && i <= |B.Pushed(sub)|
      && sub.since + j <= |s.repository.live|
      && Interleaves(s.monitor.consumed, B.Pushed(sub)[..i], s.repository.live[sub.since..][..j])
      && (|B.Pushed(sub)| - i) + (|s.repository.live| - sub.since - j) == |sub.buffer| + Unsent(s.repository, k) <= 2
  {
    RunKeepsInv(BEGIN, steps);
    var s := After(BEGIN, steps);
    var k := s.channel.value;
    i, j := ReceivedInOrder(s.repository.subs[k], B.Offered(s.repository, k), s.repository.live);
  }

  /** The same, told from the steps: the event loop has handled Starts of the first listed containers mixed, in
      order, with the first events taken from docker and broadcast after its registration. */
  lemma HandledFromSteps(steps: seq<Step>, k: nat) returns (i: nat, j: nat)
    requires ValidRun(BEGIN, steps) && After(BEGIN, steps).channel == Some(k)
    ensures var b := RepositorySteps(steps, k);
      && k < |BR.Registered(b)|
      && BR.Registered(b)[k] + j <= BR.Locks(b) <= |BR.Taken(b)|
      && i <= BR.Pushes(b, k) <= |BR.ListedBy(b, k)|
      && Interleaves(After(BEGIN, steps).monitor.consumed, B.Starts(BR.ListedBy(b, k)[..i]),
                     BR.Taken(b)[BR.Registered(b)[k]..BR.Registered(b)[k] + j])
      && (BR.Pushes(b, k) - i) + (BR.Locks(b) - BR.Registered(b)[k] - j) <= 2
  {
    var b := RepositorySteps(steps, k);
    RepositoryRuns(steps, k);
    i, j := HandledInOrder(steps);
    BR.RegistrationFromSteps(b, k);
    BR.StartsOfPrefix(BR.ListedBy(b, k), BR.Pushes(b, k), i);
    BR.SliceOfPrefix(BR.Taken(b), BR.Locks(b), BR.Registered(b)[k], BR.Registered(b)[k] + j);
  }

  /** With the channel empty and the mutex free, the event loop has handled both streams in full. */
  lemma EverythingHandled(steps: seq<Step>)
    requires ValidRun(BEGIN, steps) && After(BEGIN, steps).channel.Some?
    requires var s := After(BEGIN, steps);
      && s.channel.value < |s.repository.subs| && s.repository.subs[s.channel.value].buffer == []
      && !s.repository.broadcaster.Sending?
    ensures var s := After(BEGIN, steps);
      var sub := s.repository.subs[s.channel.value];
      && B.ListerOk(sub) && sub.since <= |s.repository.live|
      && Interleaves(s.monitor.consumed, B.Pushed(sub), s.repository.live[sub.since..])
  {
    var i, j := HandledInOrder(steps);
    var s := After(BEGIN, steps);
    var sub := s.repository.subs[s.channel.value];
    assert B.Pushed(sub)[..i] == B.Pushed(sub);
    assert s.repository.live[sub.since..][..j] == s.repository.live[sub.since..];
  }

  /** When the event loop holds an entry for a container, in every reachable state: exactly when the live events
      it has handled say so, or when a listed Start was handled after the last live Stop. */
  lemma EntryIffRunningOrListedLate(steps: seq<Step>, id: string) returns (i: nat, j: nat)
    requires ValidRun(BEGIN, steps) && After(BEGIN, steps).channel.Some?
    ensures var s := After(BEGIN, steps);
      var k := s.channel.value;
      && k < |s.repository.subs|
      && var sub := s.repository.subs[k];
      && B.ListerOk(sub) && i <= |B.Pushed(sub)| && sub.since + j <= |s.repository.live|
      && var listed, live := B.Pushed(sub)[..i], s.repository.live[sub.since..][..j];
      && Interleaves(s.monitor.consumed, listed, live)
      && (|B.Pushed(sub)| - i) + (|s.repository.live| - sub.since - j) == |sub.buffer| + Unsent(s.repository, k)
      && (id in s.monitor.account.cancels <==>
            Running(live, id) || ListedAfterLastStop(s.monitor.consumed, listed, live, id))
  {
    RunKeepsInv(BEGIN, steps);
    i, j := HandledInOrder(steps);
    var s := After(BEGIN, steps);
    var sub := s.repository.subs[s.channel.value];
    RunningIffListedLate(s.monitor.consumed, B.Pushed(sub)[..i], s.repository.live[sub.since..][..j], id);
    CancelsAreRunning(s.monitor.consumed, id);
  }

  lemma {:induction false} RepeatsOfPrefix(events: seq<Event>, n: nat, id: string)
    requires n <= |events|
    ensures Repeats(events[..n], id) <= Repeats(events, id)
  {
    if n < |events| {
      assert Front(events)[..n] == events[..n];
      RepeatsOfPrefix(Front(events), n, id);
    } else {
      assert events[..n] == events;
    }
  }

  lemma {:induction false} OccurrencesOfPrefix(events: seq<Event>, n: nat, id: string)
    requires n <= |events|
    ensures Occurrences(events[..n], id) <= Occurrences(events, id)
  {
    if n < |events| {
      assert Front(events)[..n] == events[..n];
      OccurrencesOfPrefix(Front(events), n, id);
    } else {
      assert events[..n] == events;
    }
  }

  /** Bound on the race between listing and stream, in every reachable state of the whole system: for each
      container, the monitors that no Stop can cancel any more are at most the repeated live Starts plus the
      listed occurrences; on top of them at most the one monitor of a running container is uncancelled. */
  lemma UncancelableBound(steps: seq<Step>, id: string)
    requires ValidRun(BEGIN, steps) && After(BEGIN, steps).channel.Some?
    ensures var s := After(BEGIN, steps);
      var k := s.channel.value;
      && k < |s.repository.subs| && B.ListerOk(s.repository.subs[k])
      && s.repository.subs[k].since <= |s.repository.live|
      && Uncancelled(s.monitor.account.contexts, id)
           <= Repeats(s.repository.live[s.repository.subs[k].since..], id)
              + Occurrences(B.Pushed(s.repository.subs[k]), id)
              + if Running(s.monitor.consumed, id) then 1 else 0
  {
    RunKeepsInv(BEGIN, steps);
    var s := After(BEGIN, steps);
    var sub := s.repository.subs[s.channel.value];
    var i, j := HandledInOrder(steps);
    var listed, live := B.Pushed(sub)[..i], s.repository.live[sub.since..][..j];
    ListingAddsRepeats(s.monitor.consumed, listed, live, id);
    Accounting(s.monitor.consumed, id);
    RepeatsOfPrefix(s.repository.live[sub.since..], j, id);
    OccurrencesOfPrefix(B.Pushed(sub), i, id);
  }

  /** When the live events of a container alternate and the listing names it at most once, a Stop leaves at
      most one monitor running that nothing will ever cancel. */
  lemma AtMostOneOrphan(steps: seq<Step>, id: string)
    requires ValidRun(BEGIN, steps) && After(BEGIN, steps).channel.Some?
    requires var s := After(BEGIN, steps);
      var k := s.channel.value;
      && k < |s.repository.subs| && B.ListerOk(s.repository.subs[k])
      && s.repository.subs[k].since <= |s.repository.live|
      && Alternates(s.repository.live[s.repository.subs[k].since..], id)
      && Occurrences(B.Pushed(s.repository.subs[k]), id) <= 1
    ensures var s := After(BEGIN, steps);
      Uncancelled(s.monitor.account.contexts, id) <= if Running(s.monitor.consumed, id) then 2 else 1
  {
    var s := After(BEGIN, steps);
    UncancelableBound(steps, id);
    NoRepeatsIffAlternates(s.repository.live[s.repository.subs[s.channel.value].since..], id);
  }

  /** A run may be extended by any step enabled at its end. */
  lemma {:induction false} RunSnoc(s: State, steps: seq<Step>, step: Step)
    requires ValidRun(s, steps) && Enabled(After(s, steps), step)
    ensures ValidRun(s, steps + [step]) && After(s, steps + [step]) == Apply(After(s, steps), step)
    decreases |steps|
  {
    if steps == [] {
      assert steps + [step] == [step];
    } else {
      assert (steps + [step])[1..] == steps[1..] + [step];
      RunSnoc(Apply(s, steps[0]), steps[1..], step);
    }
  }

  /** The monitor side after these events and nothing else. */
  function MonitorAfter(consumed: seq<Event>): L.State {
    var account := HandleAll(consumed);
    L.State(false, consumed, account, seq(|account.contexts|, i => L.Selecting), CpuMonitor.NO_SAMPLES, [])
  }

  /** The system with one registration, made before anything was broadcast. */
  function At(broadcaster: B.Broadcaster, live: seq<Event>, buffer: seq<Event>, received: seq<Event>,
              lister: B.Lister): State
  {
    State(B.State(broadcaster, live, [B.Subscriber(0, buffer, received, lister)]), MonitorAfter(received), Some(0))
  }

  lemma HandleOne(consumed: seq<Event>, e: Event)
    ensures L.Enabled(MonitorAfter(consumed), L.HandleNext(e))
    ensures L.Apply(MonitorAfter(consumed), L.HandleNext(e)) == MonitorAfter(consumed + [e])
  {
    FrontOfAppend(consumed, e);
    assert L.Apply(MonitorAfter(consumed), L.HandleNext(e)).monitors == MonitorAfter(consumed + [e]).monitors;
  }

  lemma DeliverOne(broadcaster: B.Broadcaster, live: seq<Event>, e: Event, received: seq<Event>, lister: B.Lister)
    ensures var s := At(broadcaster, live, [e], received, lister);
      Enabled(s, Deliver) && Apply(s, Deliver) == At(broadcaster, live, [], received + [e], lister)
  {
    HandleOne(received, e);
    assert [e][1..] == [];
  }

  lemma SendOne(live: seq<Event>, received: seq<Event>, lister: B.Lister, e: Event)
    ensures var s, step := At(B.Sending(e, 0), live, [], received, lister), Repository(B.Send);
      Enabled(s, step) && Apply(s, step) == At(B.Sending(e, 1), live, [e], received, lister)
  {
  }

  /** The next listed container is pushed. */
  lemma PushOne(live: seq<Event>, received: seq<Event>, ids: seq<string>, next: nat)
    requires next < |ids|
    ensures var s, step := At(B.Idle, live, [], received, B.Pushing(ids, next)), Repository(B.Push(0));
      && Enabled(s, step)
      && Apply(s, step) == At(B.Idle, live, [Event(ids[next], ActionStart)], received, B.Pushing(ids, next + 1))
  {
  }

  lemma ExtendRun(steps: seq<Step>, s: State, step: Step, t: State) returns (more: seq<Step>)
    requires ValidRun(BEGIN, steps) && After(BEGIN, steps) == s && Enabled(s, step) && Apply(s, step) == t
    ensures ValidRun(BEGIN, more) && After(BEGIN, more) == t
  {
    RunSnoc(BEGIN, steps, step);
    more := steps + [step];
  }

  /** One event is broadcast, taken out of the channel and handled. */
  lemma BroadcastOne(steps: seq<Step>, live: seq<Event>, received: seq<Event>, lister: B.Lister, e: Event)
    returns (more: seq<Step>)
    requires ValidRun(BEGIN, steps) && After(BEGIN, steps) == At(B.Idle, live, [], received, lister)
    ensures ValidRun(BEGIN, more) && After(BEGIN, more) == At(B.Idle, live + [e], [], received + [e], lister)
  {
    var waiting := At(B.Waiting(e), live, [], received, lister);
    var sending := At(B.Sending(e, 0), live + [e], [], received, lister);
    var sent := At(B.Sending(e, 1), live + [e], [e], received, lister);
    var delivered := At(B.Sending(e, 1), live + [e], [], received + [e], lister);
    more := ExtendRun(steps, At(B.Idle, live, [], received, lister), Repository(B.Take(e)), waiting);
    more := ExtendRun(more, waiting, Repository(B.Lock), sending);
    SendOne(live + [e], received, lister, e);
    more := ExtendRun(more, sending, Repository(B.Send), sent);
    DeliverOne(B.Sending(e, 1), live + [e], e, received, lister);
    more := ExtendRun(more, sent, Deliver, delivered);
    more := ExtendRun(more, delivered, Repository(B.Unlock), At(B.Idle, live + [e], [], received + [e], lister));
  }

  /** The next listed container is pushed, taken out of the channel and handled. */
  lemma PushAndDeliver(steps: seq<Step>, live: seq<Event>, received: seq<Event>, ids: seq<string>, next: nat)
    returns (more: seq<Step>)
    requires next < |ids|
    requires ValidRun(BEGIN, steps) && After(BEGIN, steps) == At(B.Idle, live, [], received, B.Pushing(ids, next))
    ensures ValidRun(BEGIN, more)
    ensures After(BEGIN, more)
         == At(B.Idle, live, [], received + [Event(ids[next], ActionStart)], B.Pushing(ids, next + 1))
  {
    var e := Event(ids[next], ActionStart);
    var pushed := At(B.Idle, live, [e], received, B.Pushing(ids, next + 1));
    PushOne(live, received, ids, next);
    more := ExtendRun(steps, At(B.Idle, live, [], received, B.Pushing(ids, next)), Repository(B.Push(0)), pushed);
    DeliverOne(B.Idle, live, e, received, B.Pushing(ids, next + 1));
    more := ExtendRun(more, pushed, Deliver, At(B.Idle, live, [], received + [e], B.Pushing(ids, next + 1)));
  }

  /** A channel is registered and its lister finds one container. */
  lemma RegisterAndList(id: string) returns (steps: seq<Step>)
    ensures ValidRun(BEGIN, steps) && After(BEGIN, steps) == At(B.Idle, [], [], [], B.Pushing([id], 0))
  {
    assert MonitorAfter([]).monitors == [];
    steps := ExtendRun([], BEGIN, Register, At(B.Idle, [], [], [], B.Listing));
    steps := ExtendRun(steps, At(B.Idle, [], [], [], B.Listing), Repository(B.ListDone(0, [id])),
                       At(B.Idle, [], [], [], B.Pushing([id], 0)));
  }

  /** A container that starts while it is being listed, and then stops. */
  lemma RepeatedStartRun(id: string) returns (steps: seq<Step>)
    ensures ValidRun(BEGIN, steps)
    ensures var start, stop := Event(id, ActionStart), Event(id, ActionStop);
      After(BEGIN, steps) == At(B.Idle, [start, stop], [], [start, start, stop], B.Pushing([id], 1))
  {
    var start, stop := Event(id, ActionStart), Event(id, ActionStop);
    steps := RegisterAndList(id);
    steps := BroadcastOne(steps, [], [], B.Pushing([id], 0), start);
    assert [] + [start] == [start];
    steps := PushAndDeliver(steps, [start], [start], [id], 0);
    assert [start] + [start] == [start, start];
    steps := BroadcastOne(steps, [start], [start, start], B.Pushing([id], 1), stop);
    assert [start] + [stop] == [start, stop] && [start, start] + [stop] == [start, start, stop];
  }

  /** The bound is reached: such a container leaves a monitor that nothing cancels, although its live events
      alternate and the listing names it once. */
  lemma OrphanIsReachable(id: string) returns (steps: seq<Step>)
    ensures ValidRun(BEGIN, steps)
    ensures var start, stop := Event(id, ActionStart), Event(id, ActionStop);
      After(BEGIN, steps) == At(B.Idle, [start, stop], [], [start, start, stop], B.Pushing([id], 1))
    ensures After(BEGIN, steps).monitor.account.contexts == [Context(id, false), Context(id, true)]
  {
    steps := RepeatedStartRun(id);
    RepeatedStartLeavesMonitor(id);
  }

  /** The Stop of a listed container overtakes its listed Start. */
  lemma LateStartRun(id: string) returns (steps: seq<Step>)
    ensures ValidRun(BEGIN, steps)
    ensures var start, stop := Event(id, ActionStart), Event(id, ActionStop);
      After(BEGIN, steps) == At(B.Idle, [stop], [], [stop, start], B.Pushing([id], 1))
  {
    var start, stop := Event(id, ActionStart), Event(id, ActionStop);
    steps := RegisterAndList(id);
    steps := BroadcastOne(steps, [], [], B.Pushing([id], 0), stop);
    assert [] + [stop] == [stop];
    steps := PushAndDeliver(steps, [stop], [stop], [id], 0);
    assert [stop] + [start] == [stop, start];
  }

  /** A late Start is reachable: it spawns a monitor that the event loop keeps although the live stream has
      stopped the container. */
  lemma LateStartIsReachable(id: string) returns (steps: seq<Step>)
    ensures ValidRun(BEGIN, steps)
    ensures var start, stop := Event(id, ActionStart), Event(id, ActionStop);
      After(BEGIN, steps) == At(B.Idle, [stop], [], [stop, start], B.Pushing([id], 1))
    ensures var account := After(BEGIN, steps).monitor.account;
      account.contexts == [Context(id, false)] && id in account.cancels
  {
    steps := LateStartRun(id);
    StopBeforeStart(id);
  }

  lemma StopBeforeStart(id: string)
    ensures HandleAll([Event(id, ActionStop), Event(id, ActionStart)]) == Account(map[id := 0], [Context(id, false)])
  {
    var events := [Event(id, ActionStop), Event(id, ActionStart)];
    assert Front(events) == [Event(id, ActionStop)] && Front([Event(id, ActionStop)]) == [];
    assert HandleAll([Event(id, ActionStop)]) == NO_MONITORS;
  }
}
