/** docker/container_repository.go: what a run says about its steps, told from the steps alone: which events
    were broadcast, what each lister listed and pushed, and what each consumer received. */
module BroadcastRuns {
  import opened Prelude
  import opened Events
  import opened Broadcast

  lemma {:induction false} LastStep(s: State, steps: seq<Step>)
    requires steps != [] && ValidRun(s, steps)
    ensures ValidRun(s, Front(steps)) && Enabled(After(s, Front(steps)), Last(steps))
    ensures After(s, steps) == Apply(After(s, Front(steps)), Last(steps))
    decreases |steps|
  {
    if |steps| > 1 {
      LastStep(Apply(s, steps[0]), steps[1..]);
      assert Front(steps)[0] == steps[0] && Front(steps)[1..] == Front(steps[1..]);
    } else {
      assert Front(steps) == [] && steps[1..] == [];
    }
  }

  lemma {:induction false} RunSnoc(s: State, steps: seq<Step>, step: Step)
    requires ValidRun(s, steps) && Enabled(After(s, steps), step)
    ensures ValidRun(s, steps + [step]) && After(s, steps + [step]) == Apply(After(s, steps), step)
    decreases |steps|
  {
    if steps == [] {
      assert steps + [step] == [step];
    } else {
      assert (steps + [step])[1..] == steps[1..] + [step];
      RunSnoc(Apply(s, steps[0]), steps[1..], step);
    }
  }

  // ----- What the steps say

  /** The events received from docker, in order. */
  function Taken(steps: seq<Step>): seq<Event> {
    if steps == [] then []
    else Taken(Front(steps)) + if Last(steps).Take? then [Last(steps).event] else []
  }

  /** How many of them the mutex has been taken for. */
  function Locks(steps: seq<Step>): nat {
    if steps == [] then 0 else Locks(Front(steps)) + if Last(steps).Lock? then 1 else 0
  }

  /** For every registration, how many events the mutex had been taken for before it. */
  function Registered(steps: seq<Step>): seq<nat> {
    if steps == [] then []
    else Registered(Front(steps)) + if Last(steps).Register? then [Locks(Front(steps))] else []
  }

  /** The listing that the lister of registration k has got. */
  function Listing(steps: seq<Step>, k: nat): Option<seq<string>> {
    if steps == [] then None
    else if Last(steps).ListDone? && Last(steps).sub == k then Some(Last(steps).ids) else Listing(Front(steps), k)
  }

  /** How many of its Starts it has pushed. */
  function Pushes(steps: seq<Step>, k: nat): nat {
    if steps == [] then 0 else Pushes(Front(steps), k) + if Last(steps) == Push(k) then 1 else 0
  }

  /** How many events its consumer has received. */
  function Receives(steps: seq<Step>, k: nat): nat {
    if steps == [] then 0 else Receives(Front(steps), k) + if Last(steps) == Receive(k) then 1 else 0
  }

  // ----- The broadcast events

  /** The broadcast events are the received ones for which the mutex was taken; at most one is waiting. */
  predicate LiveIs(s: State, taken: seq<Event>, locks: nat) {
    && locks <= |taken| && s.live == taken[..locks]
    && match s.broadcaster
       case Idle => locks == |taken|
       case Waiting(e) => locks + 1 == |taken| && Last(taken) == e
       case Sending(e, _) => locks == |taken| && taken != [] && Last(taken) == e
  }

  lemma StepKeepsLive(s: State, step: Step, taken: seq<Event>, locks: nat)
    requires Enabled(s, step) && LiveIs(s, taken, locks)
    ensures LiveIs(Apply(s, step), taken + (if step.Take? then [step.event] else []),
                   locks + if step.Lock? then 1 else 0)
  {
    match step
    case Take(e) => assert (taken + [e])[..locks] == taken[..locks];
    case Lock => assert taken[..locks] + [Last(taken)] == taken[..locks + 1];
    case _ => assert taken + [] == taken;
  }

  lemma {:induction false} LiveFromSteps(steps: seq<Step>)
    requires ValidRun(START, steps)
    ensures LiveIs(After(START, steps), Taken(steps), Locks(steps))
  {
    if steps != [] {
      LastStep(START, steps);
      LiveFromSteps(Front(steps));
      StepKeepsLive(After(START, Front(steps)), Last(steps), Taken(Front(steps)), Locks(Front(steps)));
    }
  }

  // ----- The registrations

  predicate RegisteredIs(s: State, registered: seq<nat>, locks: nat) {
    && |s.live| == locks && |s.subs| == |registered|
    && forall k :: 0 <= k < |registered| ==> s.subs[k].since == registered[k]
  }

  lemma StepKeepsRegistered(s: State, step: Step, registered: seq<nat>, locks: nat)
    requires Enabled(s, step) && RegisteredIs(s, registered, locks)
    ensures RegisteredIs(Apply(s, step), registered + (if step.Register? then [locks] else []),
                         locks + if step.Lock? then 1 else 0)
  {
    assert registered + [] == registered;
  }

  lemma {:induction false} RegisteredFromSteps(steps: seq<Step>)
    requires ValidRun(START, steps)
    ensures RegisteredIs(After(START, steps), Registered(steps), Locks(steps))
  {
    if steps != [] {
      LastStep(START, steps);
      RegisteredFromSteps(Front(steps));
      StepKeepsRegistered(After(START, Front(steps)), Last(steps), Registered(Front(steps)), Locks(Front(steps)));
    }
  }

  // ----- One channel

  /** What the goroutines at the two ends of a channel have done. */
  predicate EndsAre(sub: Subscriber, listing: Option<seq<string>>, pushes: nat, receives: nat) {
    && |sub.received| == receives
    && match sub.lister
       case Pushing(ids, next) => listing == Some(ids) && next == pushes
       case _ => listing == None && pushes == 0
  }

  predicate ChannelIs(s: State, k: nat, listing: Option<seq<string>>, pushes: nat, receives: nat) {
    if k < |s.subs| then EndsAre(s.subs[k], listing, pushes, receives)
    else listing == None && pushes == 0 && receives == 0
  }

  lemma StepKeepsChannel(s: State, step: Step, k: nat, listing: Option<seq<string>>, pushes: nat, receives: nat)
    requires Enabled(s, step) && ChannelIs(s, k, listing, pushes, receives)
    ensures ChannelIs(Apply(s, step), k, if step.ListDone? && step.sub == k then Some(step.ids) else listing,
                      pushes + (if step == Push(k) then 1 else 0), receives + if step == Receive(k) then 1 else 0)
  {
  }

  lemma {:induction false} ChannelFromSteps(steps: seq<Step>, k: nat)
    requires ValidRun(START, steps)
    ensures ChannelIs(After(START, steps), k, Listing(steps, k), Pushes(steps, k), Receives(steps, k))
  {
    if steps != [] {
      var before := Front(steps);
      LastStep(START, steps);
      ChannelFromSteps(before, k);
      StepKeepsChannel(After(START, before), Last(steps), k,
                       Listing(before, k), Pushes(before, k), Receives(before, k));
    }
  }

  /** A lister that has failed stays so. */
  lemma {:induction false} GaveUpStays(steps: seq<Step>, k: nat)
    requires ValidRun(START, steps) && ListFailed(k) in steps
    ensures k < |After(START, steps).subs| && After(START, steps).subs[k].lister == GaveUp
  {
    LastStep(START, steps);
    assert steps == Front(steps) + [Last(steps)];
    if Last(steps) != ListFailed(k) {
      GaveUpStays(Front(steps), k);
    }
  }

  /** After a failed listing nothing is ever pushed. */
  lemma FailedListingPushesNothing(steps: seq<Step>, k: nat)
    requires ValidRun(START, steps) && ListFailed(k) in steps
    ensures Listing(steps, k) == None && Pushes(steps, k) == 0
  {
    GaveUpStays(steps, k);
    ChannelFromSteps(steps, k);
  }

  /** A subscriber's listing, empty until it has one. */
  function ListedBy(steps: seq<Step>, k: nat): seq<string> {
    if Listing(steps, k).Some? then Listing(steps, k).value else []
  }

  /** The history of one registration, from the steps. */
  lemma RegistrationFromSteps(steps: seq<Step>, k: nat)
    requires ValidRun(START, steps)
    ensures k < |Registered(steps)| <==> k < |After(START, steps).subs|
    ensures Locks(steps) <= |Taken(steps)| && After(START, steps).live == Taken(steps)[..Locks(steps)]
    ensures k < |Registered(steps)| ==>
      && After(START, steps).subs[k].since == Registered(steps)[k]
      && |After(START, steps).subs[k].received| == Receives(steps, k)
      && Pushes(steps, k) <= |ListedBy(steps, k)| && ListerOk(After(START, steps).subs[k])
      && Pushed(After(START, steps).subs[k]) == Starts(ListedBy(steps, k)[..Pushes(steps, k)])
  {
    LiveFromSteps(steps);
    RegisteredFromSteps(steps);
    ChannelFromSteps(steps, k);
    RunKeepsInv(START, steps);
    if k < |Registered(steps)| {
      assert InOrder(After(START, steps).subs[k], Offered(After(START, steps), k));
    }
  }

  lemma SliceOfPrefix<T>(s: seq<T>, n: nat, from: nat, to: nat)
    requires from <= to <= n <= |s|
    ensures s[..n][from..to] == s[from..to] && s[..n][from..][..to - from] == s[from..to]
  {
  }

  lemma StartsOfPrefix(ids: seq<string>, n: nat, i: nat)
    requires i <= n <= |ids|
    ensures Starts(ids[..n])[..i] == Starts(ids[..i])
  {
  }

  /** Delivery, told from the steps: in every run and for every registration, what was put into the channel is
      an order-preserving interleaving of the Starts of the listed containers, as many as were pushed, with the
      events received from docker, from the first one broadcast after the registration on; the consumer has
      received all of it but at most one. */
  lemma Delivery(steps: seq<Step>, k: nat) returns (reached: nat)
    requires ValidRun(START, steps) && k < |Registered(steps)|
    ensures var s := After(START, steps);
      && k < |s.subs| && |s.subs[k].buffer| <= 1 && |s.subs[k].received| == Receives(steps, k)
      && Registered(steps)[k] <= reached <= Locks(steps) <= |Taken(steps)|
      && Locks(steps) <= reached + 1 && (!s.broadcaster.Sending? ==> reached == Locks(steps))
      && Pushes(steps, k) <= |ListedBy(steps, k)|
      && Interleaves(s.subs[k].received + s.subs[k].buffer,
                     Starts(ListedBy(steps, k)[..Pushes(steps, k)]), Taken(steps)[Registered(steps)[k]..reached])
  {
    RegistrationFromSteps(steps, k);
    reached := DeliveryInOrder(steps, k);
    SliceOfPrefix(Taken(steps), Locks(steps), Registered(steps)[k], reached);
  }

  // ----- As long as consumers receive, nothing blocks for good

  lemma OneMore(steps: seq<Step>, more: seq<Step>, step: Step) returns (longer: seq<Step>)
    requires ValidRun(START, steps + more) && Enabled(After(START, steps + more), step)
    ensures longer == more + [step] && ValidRun(START, steps + longer)
    ensures After(START, steps + longer) == Apply(After(START, steps + more), step)
  {
    RunSnoc(START, steps + more, step);
    longer := more + [step];
    assert steps + more + [step] == steps + longer;
  }

  /** The consumer makes room in its channel. */
  lemma MakeRoom(steps: seq<Step>, more: seq<Step>, k: nat) returns (longer: seq<Step>)
    requires ValidRun(START, steps + more) && k < |After(START, steps + more).subs|
    ensures ValidRun(START, steps + longer)
    ensures var s, t := After(START, steps + more), After(START, steps + longer);
      && t.broadcaster == s.broadcaster && t.live == s.live && |t.subs| == |s.subs|
      && t.subs[k].buffer == [] && t.subs[k].lister == s.subs[k].lister
  {
    longer := more;
    RunKeepsInv(START, steps + more);
    assert InOrder(After(START, steps + more).subs[k], Offered(After(START, steps + more), k));
    if After(START, steps + more).subs[k].buffer != [] {
      longer := OneMore(steps, more, Receive(k));
    }
  }

  /** A lister can push everything it has listed. */
  lemma CanPushAll(steps: seq<Step>, more: seq<Step>, k: nat) returns (longer: seq<Step>)
    requires ValidRun(START, steps + more)
    requires k < |After(START, steps + more).subs| && After(START, steps + more).subs[k].lister.Pushing?
    ensures ValidRun(START, steps + longer) && k < |After(START, steps + longer).subs|
    ensures var ids := After(START, steps + more).subs[k].lister.ids;
      After(START, steps + longer).subs[k].lister == Pushing(ids, |ids|)
    decreases var l := After(START, steps + more).subs[k].lister; |l.ids| - l.next
  {
    RunKeepsInv(START, steps + more);
    var l := After(START, steps + more).subs[k].lister;
    assert InOrder(After(START, steps + more).subs[k], Offered(After(START, steps + more), k));
    longer := more;
    if l.next < |l.ids| {
      longer := MakeRoom(steps, more, k);
      longer := OneMore(steps, longer, Push(k));
      longer := CanPushAll(steps, longer, k);
    }
  }

  /** A broadcast under way can be finished. */
  lemma CanFinishRound(steps: seq<Step>, more: seq<Step>) returns (longer: seq<Step>)
    requires ValidRun(START, steps + more) && After(START, steps + more).broadcaster.Sending?
    ensures ValidRun(START, steps + longer)
    ensures After(START, steps + longer).broadcaster == Idle
    ensures After(START, steps + longer).live == After(START, steps + more).live
    decreases var s := After(START, steps + more); |s.subs| - s.broadcaster.next
  {
    RunKeepsInv(START, steps + more);
    var s := After(START, steps + more);
    if s.broadcaster.next < |s.subs| {
      longer := MakeRoom(steps, more, s.broadcaster.next);
      longer := OneMore(steps, longer, Send);
      longer := CanFinishRound(steps, longer);
    } else {
      longer := OneMore(steps, more, Unlock);
    }
  }

  /** From every reachable state any event can still be broadcast to everybody registered. */
  lemma CanBroadcast(steps: seq<Step>, e: Event) returns (more: seq<Step>)
    requires ValidRun(START, steps)
    ensures ValidRun(START, steps + more)
    ensures var s := After(START, steps + more); s.broadcaster == Idle && s.live != [] && Last(s.live) == e
  {
    more := [];
    assert steps + more == steps;
    if After(START, steps + more).broadcaster.Waiting? {
      more := OneMore(steps, more, Lock);
    }
    if After(START, steps + more).broadcaster.Sending? {
      more := CanFinishRound(steps, more);
    }
    more := OneMore(steps, more, Take(e));
    more := OneMore(steps, more, Lock);
    more := CanFinishRound(steps, more);
  }
}
