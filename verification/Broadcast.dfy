/** docker/container_repository.go: the broadcast of docker events to registered channels of capacity one,
    with one goroutine per subscriber that pushes the containers already running into the same channel. */
module Broadcast {
  import opened Prelude
  import opened Events

  /** The goroutine started by a registration: listing, then pushing one Start per listed container. */
  datatype Lister =
    | Listing
    | Pushing(ids: seq<string>, next: nat)
    | GaveUp

  /** A registered channel and its two ends. */
  datatype Subscriber = Subscriber(
    since: nat,             // how many events had been broadcast when it registered
    buffer: seq<Event>,     // the content of the channel
    received: seq<Event>,   // what its consumer has taken out
    lister: Lister)

  /** The broadcasting goroutine. The registration mutex is held exactly while it is Sending; registrations
      hold it only within one step. */
  datatype Broadcaster =
    | Idle
    | Waiting(event: Event)
    | Sending(event: Event, next: nat)

  datatype State = State(
    broadcaster: Broadcaster,
    live: seq<Event>,         // every event for which the mutex has been taken, in order
    subs: seq<Subscriber>)

  datatype Step =
    | Take(event: Event)
    | Lock
    | Send
    | Unlock
    | Register
    | ListDone(sub: nat, ids: seq<string>)
    | ListFailed(sub: nat)
    | Push(sub: nat)
    | Receive(sub: nat)

  /** A send into a channel of capacity one blocks while the channel is full. */
  predicate Enabled(s: State, step: Step) {
    match step
    case Take(_) => s.broadcaster.Idle?
    case Lock => s.broadcaster.Waiting?
    case Send => s.broadcaster.Sending? && s.broadcaster.next < |s.subs| && s.subs[s.broadcaster.next].buffer == []
    case Unlock => s.broadcaster.Sending? && s.broadcaster.next == |s.subs|
    case Register => !s.broadcaster.Sending?
    case ListDone(k, _) => k < |s.subs| && s.subs[k].lister.Listing?
    case ListFailed(k) => k < |s.subs| && s.subs[k].lister.Listing?
    case Push(k) =>
      && k < |s.subs| && s.subs[k].buffer == []
      && s.subs[k].lister.Pushing? && s.subs[k].lister.next < |s.subs[k].lister.ids|
    case Receive(k) => k < |s.subs| && s.subs[k].buffer != []
  }

  function NewSubscriber(since: nat): Subscriber {
    Subscriber(since, [], [], Listing)
  }

  function Apply(s: State, step: Step): State
    requires Enabled(s, step)
  {
    match step
    case Take(e) => s.(broadcaster := Waiting(e))
    case Lock => s.(broadcaster := Sending(s.broadcaster.event, 0), live := s.live + [s.broadcaster.event])
    case Send =>
      var k, e := s.broadcaster.next, s.broadcaster.event;
      s.(broadcaster := Sending(e, k + 1), subs := s.subs[k := s.subs[k].(buffer := [e])])
    case Unlock => s.(broadcaster := Idle)
    case Register => s.(subs := s.subs + [NewSubscriber(|s.live|)])
    case ListDone(k, ids) => s.(subs := s.subs[k := s.subs[k].(lister := Pushing(ids, 0))])
    case ListFailed(k) => s.(subs := s.subs[k := s.subs[k].(lister := GaveUp)])
    case Push(k) =>
      var l := s.subs[k].lister;
      var e := Event(l.ids[l.next], ActionStart);
      s.(subs := s.subs[k := s.subs[k].(buffer := [e], lister := Pushing(l.ids, l.next + 1))])
    case Receive(k) =>
      var sub := s.subs[k];
      s.(subs := s.subs[k := sub.(buffer := sub.buffer[1..], received := sub.received + [sub.buffer[0]])])
  }

  const START := State(Idle, [], [])

  predicate ValidRun(s: State, steps: seq<Step>)
    decreases |steps|
  {
    steps == [] || (Enabled(s, steps[0]) && ValidRun(Apply(s, steps[0]), steps[1..]))
  }

  function After(s: State, steps: seq<Step>): State
    requires ValidRun(s, steps)
    decreases |steps|
  {
    if steps == [] then s else After(Apply(s, steps[0]), steps[1..])
  }

  // ----- The invariant

  /** Everything put into the channel so far. */
  function Sent(sub: Subscriber): seq<Event> {
    sub.received + sub.buffer
  }

  function Starts(ids: seq<string>): seq<Event> {
    seq(|ids|, i requires 0 <= i < |ids| => Event(ids[i], ActionStart))
  }

  predicate ListerOk(sub: Subscriber) {
    sub.lister.Pushing? ==> sub.lister.next <= |sub.lister.ids|
  }

  /** The listed Starts pushed so far. */
  function Pushed(sub: Subscriber): seq<Event>
    requires ListerOk(sub)
  {
    if sub.lister.Pushing? then Starts(sub.lister.ids[..sub.lister.next]) else []
  }

  /** The broadcast events that the loop has already handed to subscriber k, if it was registered in time. */
  function Offered(s: State, k: nat): seq<Event> {
    if s.broadcaster.Sending? && k >= s.broadcaster.next && s.live != [] then Front(s.live) else s.live
  }

  /** The channel has carried the pushed Starts and the offered events since the registration, in order. */
  predicate InOrder(sub: Subscriber, offered: seq<Event>) {
    && |sub.buffer| <= 1 && ListerOk(sub)
    && sub.since <= |offered|
    && Interleaves(Sent(sub), Pushed(sub), offered[sub.since..])
  }

  /** The loop is sending the latest event. */
  predicate LoopOk(s: State) {
    s.broadcaster.Sending? ==>
      s.live != [] && Last(s.live) == s.broadcaster.event && s.broadcaster.next <= |s.subs|
  }

  predicate Inv(s: State) {
    && LoopOk(s)
    && forall k :: 0 <= k < |s.subs| ==> InOrder(s.subs[k], Offered(s, k))
  }

  // What the three operations on a channel do to its order

  lemma SendInOrder(sub: Subscriber, offered: seq<Event>, e: Event)
    requires InOrder(sub, offered) && sub.buffer == []
    ensures InOrder(sub.(buffer := [e]), offered + [e])
  {
    var after := sub.(buffer := [e]);
    InterleavesAppend(Sent(sub), Pushed(sub), offered[sub.since..], e);
    assert Sent(after) == Sent(sub) + [e] && Pushed(after) == Pushed(sub);
    assert (offered + [e])[after.since..] == offered[sub.since..] + [e];
  }

  lemma PushInOrder(sub: Subscriber, offered: seq<Event>)
    requires InOrder(sub, offered) && sub.buffer == []
    requires sub.lister.Pushing? && sub.lister.next < |sub.lister.ids|
    ensures var l := sub.lister;
      InOrder(sub.(buffer := [Event(l.ids[l.next], ActionStart)], lister := Pushing(l.ids, l.next + 1)), offered)
  {
    var l := sub.lister;
    var e := Event(l.ids[l.next], ActionStart);
    var after := sub.(buffer := [e], lister := Pushing(l.ids, l.next + 1));
    InterleavesAppend(Sent(sub), Pushed(sub), offered[sub.since..], e);
    assert Sent(after) == Sent(sub) + [e];
    assert Pushed(after) == Pushed(sub) + [e];
  }

  lemma ReceiveInOrder(sub: Subscriber, offered: seq<Event>)
    requires InOrder(sub, offered) && sub.buffer != []
    ensures InOrder(sub.(buffer := sub.buffer[1..], received := sub.received + [sub.buffer[0]]), offered)
  {
    assert Sent(sub.(buffer := sub.buffer[1..], received := sub.received + [sub.buffer[0]])) == Sent(sub);
  }

  lemma ListInOrder(sub: Subscriber, offered: seq<Event>, ids: seq<string>)
    requires InOrder(sub, offered) && sub.lister.Listing?
    ensures InOrder(sub.(lister := Pushing(ids, 0)), offered) && InOrder(sub.(lister := GaveUp), offered)
  {
    assert Pushed(sub.(lister := Pushing(ids, 0))) == [];
  }

  lemma LockKeepsOffers(s: State, k: nat)
    requires LoopOk(s) && Enabled(s, Lock)
    ensures Offered(Apply(s, Lock), k) == Offered(s, k)
  {
  }

  lemma SendOffers(s: State, k: nat)
    requires LoopOk(s) && Enabled(s, Send)
    ensures Offered(Apply(s, Send), k)
         == if k == s.broadcaster.next then Offered(s, k) + [s.broadcaster.event] else Offered(s, k)
  {
    assert s.live == Front(s.live) + [Last(s.live)];
  }

  lemma RegisterKeepsInv(s: State)
    requires Inv(s) && Enabled(s, Register)
    ensures Inv(Apply(s, Register))
  {
    var t := Apply(s, Register);
    forall k | 0 <= k < |t.subs| ensures InOrder(t.subs[k], Offered(t, k)) {
      if k < |s.subs| {
        assert t.subs[k] == s.subs[k];
      } else {
        assert InOrder(NewSubscriber(|s.live|), s.live);
      }
    }
  }

  /** A step that only replaces subscriber n keeps the invariant if the new one is in order. */
  lemma ReplaceKeepsInv(s: State, t: State, n: nat, sub: Subscriber)
    requires Inv(s) && n < |s.subs| && t == s.(subs := s.subs[n := sub])
    requires InOrder(sub, Offered(s, n))
    ensures Inv(t)
  {
    forall k | 0 <= k < |t.subs| ensures InOrder(t.subs[k], Offered(t, k)) {
      assert Offered(t, k) == Offered(s, k);
    }
  }

  lemma SendKeepsInv(s: State)
    requires Inv(s) && Enabled(s, Send)
    ensures Inv(Apply(s, Send))
  {
    var t, n := Apply(s, Send), s.broadcaster.next;
    SendInOrder(s.subs[n], Offered(s, n), s.broadcaster.event);
    forall k | 0 <= k < |t.subs| ensures InOrder(t.subs[k], Offered(t, k)) {
      SendOffers(s, k);
    }
  }

  lemma StepKeepsInv(s: State, step: Step)
    requires Inv(s) && Enabled(s, step)
    ensures Inv(Apply(s, step))
  {
    var t := Apply(s, step);
    match step
    case Take(_) =>
    case Lock =>
      forall k | 0 <= k < |t.subs| ensures InOrder(t.subs[k], Offered(t, k)) {
        LockKeepsOffers(s, k);
      }
    case Send => SendKeepsInv(s);
    case Unlock =>
    case Register => RegisterKeepsInv(s);
    case ListDone(k, ids) =>
      ListInOrder(s.subs[k], Offered(s, k), ids);
      ReplaceKeepsInv(s, t, k, t.subs[k]);
    case ListFailed(k) =>
      ListInOrder(s.subs[k], Offered(s, k), []);
      ReplaceKeepsInv(s, t, k, t.subs[k]);
    case Push(k) =>
      PushInOrder(s.subs[k], Offered(s, k));
      ReplaceKeepsInv(s, t, k, t.subs[k]);
    case Receive(k) =>
      ReceiveInOrder(s.subs[k], Offered(s, k));
      ReplaceKeepsInv(s, t, k, t.subs[k]);
  }

  lemma {:induction false} RunKeepsInv(s: State, steps: seq<Step>)
    requires Inv(s) && ValidRun(s, steps)
    ensures Inv(After(s, steps))
    decreases |steps|
  {
    if steps != [] {
      StepKeepsInv(s, steps[0]);
      RunKeepsInv(Apply(s, steps[0]), steps[1..]);
    }
  }

  // ----- What every run guarantees

  /** In every reachable state and for every subscriber: what has been put into its channel is an
      order-preserving interleaving of a prefix of its listed Starts with consecutive broadcast events from
      its registration on; at most one of them has not been received yet. */
  lemma DeliveryInOrder(steps: seq<Step>, k: nat) returns (reached: nat)
    requires ValidRun(START, steps) && k < |After(START, steps).subs|
    ensures var s := After(START, steps);
      var sub := s.subs[k];
      && |sub.buffer| <= 1 && ListerOk(sub)
      && sub.since <= reached <= |s.live| <= reached + 1
      && (!s.broadcaster.Sending? ==> reached == |s.live|)
      && Interleaves(sub.received + sub.buffer, Pushed(sub), s.live[sub.since..reached])
  {
    RunKeepsInv(START, steps);
    var s := After(START, steps);
    reached := |Offered(s, k)|;
    assert InOrder(s.subs[k], Offered(s, k));
    assert Offered(s, k)[s.subs[k].since..] == s.live[s.subs[k].since..reached];
  }

  /** The broadcast events put into the channel, counted without looking at the broadcaster. */
  function LiveCount(sub: Subscriber): int
    requires ListerOk(sub)
  {
    |sub.received| + |sub.buffer| - |Pushed(sub)|
  }

  /** Skew: while the mutex is free every subscriber has been sent every event since its registration; while
      it is held, the subscribers before the loop's position are exactly one event ahead of the others.
      No two subscribers are ever more than one broadcast event apart. */
  lemma BroadcastSkew(steps: seq<Step>, j: nat, k: nat)
    requires ValidRun(START, steps)
    requires j < |After(START, steps).subs| && k < |After(START, steps).subs|
    ensures var s := After(START, steps);
      && ListerOk(s.subs[j]) && ListerOk(s.subs[k])
      && (var sent_j, sent_k := s.subs[j].since + LiveCount(s.subs[j]), s.subs[k].since + LiveCount(s.subs[k]);
          && (if s.broadcaster.Sending? && j >= s.broadcaster.next then sent_j == |s.live| - 1 else sent_j == |s.live|)
          && -1 <= sent_j - sent_k <= 1)
  {
    var s := After(START, steps);
    RunKeepsInv(START, steps);
    assert InOrder(s.subs[j], Offered(s, j)) && InOrder(s.subs[k], Offered(s, k));
    InterleavesLength(Sent(s.subs[j]), Pushed(s.subs[j]), Offered(s, j)[s.subs[j].since..]);
    InterleavesLength(Sent(s.subs[k]), Pushed(s.subs[k]), Offered(s, k)[s.subs[k].since..]);
  }

  // ----- The source's form: a repository whose loop sends to one channel after the other

  /** A lister lists once, keeps its listing and pushes it from the front. */
  predicate ListerAdvances(before: Lister, after: Lister) {
    match before
    case Listing => true
    case Pushing(ids, next) => after.Pushing? && after.ids == ids && next <= after.next
    case GaveUp => after.GaveUp?
  }

  predicate Advances(before: Subscriber, after: Subscriber) {
    && after.since == before.since && before.received <= after.received
    && ListerAdvances(before.lister, after.lister)
  }

  /** Nothing is registered or broadcast, and every channel and lister only moves forward: what other
      goroutines may do while the broadcasting loop is blocked on a full channel. */
  predicate Rely(before: seq<Subscriber>, after: seq<Subscriber>) {
    |after| == |before| && forall k :: 0 <= k < |before| ==> Advances(before[k], after[k])
  }

  /** The steps of consumers and listers. */
  predicate IsOther(step: Step) {
    step.Receive? || step.Push? || step.ListDone? || step.ListFailed?
  }

  lemma OtherRelies(s: State, step: Step)
    requires IsOther(step) && Enabled(s, step)
    ensures Rely(s.subs, Apply(s, step).subs) && Apply(s, step) == s.(subs := Apply(s, step).subs)
  {
  }

  lemma SendRelies(s: State)
    requires Enabled(s, Send)
    ensures Rely(s.subs, Apply(s, Send).subs)
  {
  }

  lemma RelyTransitive(a: seq<Subscriber>, b: seq<Subscriber>, c: seq<Subscriber>)
    requires Rely(a, b) && Rely(b, c)
    ensures Rely(a, c)
  {
    forall k | 0 <= k < |a| ensures Advances(a[k], c[k]) {
      assert Advances(a[k], b[k]) && Advances(b[k], c[k]);
    }
  }

  class ContainerRepository {
    var broadcaster: Broadcaster
    var live: seq<Event>
    var registeredChans: seq<Subscriber>

    ghost function View(): State
      reads this
    {
      State(broadcaster, live, registeredChans)
    }

    constructor ()
      ensures View() == START && Inv(View())
    {
      broadcaster, live, registeredChans := Idle, [], [];
    }

    /** Registers a channel; its lister starts with it. */
    method RegisterToContainersStream() returns (k: nat)
      requires Inv(View()) && !broadcaster.Sending?
      modifies this
      ensures View() == Apply(old(View()), Register) && Inv(View())
      ensures k == |old(registeredChans)|
    {
      StepKeepsInv(View(), Register);
      k := |registeredChans|;
      registeredChans := registeredChans + [NewSubscriber(|live|)];
    }

    /** A step of a consumer or a lister. */
    method LetOtherMove(step: Step)
      requires Inv(View()) && IsOther(step) && Enabled(View(), step)
      modifies this`registeredChans
      ensures View() == Apply(old(View()), step)
      ensures Inv(View()) && Rely(old(registeredChans), registeredChans)
    {
      ghost var s := View();
      StepKeepsInv(s, step);
      OtherRelies(s, step);
      registeredChans := Apply(State(broadcaster, live, registeredChans), step).subs;
    }

    /** Blocks until the channel has room: any consumers and listers move, in any order, and at last the
        consumer of this channel has emptied it. */
    method AwaitRoom(k: nat)
      requires Inv(View()) && k < |registeredChans|
      modifies this`registeredChans
      ensures Inv(View()) && Rely(old(registeredChans), registeredChans) && registeredChans[k].buffer == []
    {
      var moves: int :| moves >= 0;
      for i := 0 to moves
        invariant Inv(View()) && Rely(old(registeredChans), registeredChans)
      {
        var step: Step := *;
        if IsOther(step) && Enabled(State(broadcaster, live, registeredChans), step) {
          ghost var before := registeredChans;
          LetOtherMove(step);
          RelyTransitive(old(registeredChans), before, registeredChans);
        }
      }
      if registeredChans[k].buffer != [] {
        ghost var before := registeredChans;
        assert InOrder(before[k], Offered(View(), k));
        LetOtherMove(Receive(k));
        RelyTransitive(old(registeredChans), before, registeredChans);
      }
    }

    /** Puts the event into the channel at the loop's position, which has room. */
    method Deposit(c: Event, i: nat)
      requires Inv(View()) && broadcaster == Sending(c, i) && i < |registeredChans|
      requires registeredChans[i].buffer == []
      modifies this`registeredChans, this`broadcaster
      ensures Inv(View()) && broadcaster == Sending(c, i + 1)
      ensures Rely(old(registeredChans), registeredChans)
    {
      ghost var s := View();
      SendKeepsInv(s);
      SendRelies(s);
      registeredChans := registeredChans[i := registeredChans[i].(buffer := [c])];
      broadcaster := Sending(c, i + 1);
      assert View() == Apply(s, Send);
    }

    /** registeredChan <- c: blocks for room, then deposits. */
    method SendNext(c: Event, i: nat)
      requires Inv(View()) && broadcaster == Sending(c, i) && i < |registeredChans|
      modifies this`registeredChans, this`broadcaster
      ensures Inv(View()) && broadcaster == Sending(c, i + 1)
      ensures Rely(old(registeredChans), registeredChans)
    {
      AwaitRoom(i);
      ghost var between := registeredChans;
      Deposit(c, i);
      RelyTransitive(old(registeredChans), between, registeredChans);
    }

    method LockFor(c: Event)
      requires Inv(View()) && broadcaster.Idle?
      modifies this`broadcaster, this`live
      ensures Inv(View()) && broadcaster == Sending(c, 0) && live == old(live) + [c]
    {
      StepKeepsInv(View(), Take(c));
      broadcaster := Waiting(c);
      StepKeepsInv(View(), Lock);
      broadcaster, live := Sending(c, 0), live + [c];
    }

    /** One iteration of the broadcasting goroutine: takes the mutex, sends the event to every registered
        channel, whatever the listers and consumers do meanwhile, and releases the mutex. */
    method Broadcast(c: Event)
      requires Inv(View()) && broadcaster.Idle?
      modifies this
      ensures Inv(View()) && broadcaster.Idle?
      ensures live == old(live) + [c] && Rely(old(registeredChans), registeredChans)
      ensures forall k :: 0 <= k < |registeredChans| ==> InOrder(registeredChans[k], live)
    {
      LockFor(c);
      for i := 0 to |registeredChans|
        invariant Inv(View()) && broadcaster == Sending(c, i)
        invariant live == old(live) + [c] && Rely(old(registeredChans), registeredChans)
      {
        ghost var before := registeredChans;
        SendNext(c, i);
        RelyTransitive(old(registeredChans), before, registeredChans);
      }
      StepKeepsInv(View(), Unlock);
      broadcaster := Idle;
      assert forall k :: 0 <= k < |registeredChans| ==> InOrder(registeredChans[k], Offered(View(), k));
    }
  }
}
