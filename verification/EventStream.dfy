/** cpu/cpu.go, Start: which monitors a stream of container events spawns, and which of them it cancels. */
module EventStream {
  import opened Prelude
  import opened Events

  /** What context.WithCancel returns for one spawned monitor. */
  datatype Context = Context(id: string, cancelled: bool)

  /** The local map of cancel functions, each naming the monitor it cancels, and all monitors spawned. */
  datatype Account = Account(cancels: map<string, nat>, contexts: seq<Context>)

  const NO_MONITORS := Account(map[], [])

  predicate Sound(a: Account) {
    forall id :: id in a.cancels ==> a.cancels[id] < |a.contexts|
  }

  /** One iteration of the event loop. */
  function Handle(a: Account, e: Event): (after: Account)
    requires Sound(a)
    ensures Sound(after)
  {
    match e.action
    case ActionStart => Account(a.cancels[e.id := |a.contexts|], a.contexts + [Context(e.id, false)])
    case ActionStop =>
      if e.id !in a.cancels then a
      else
        var m := a.cancels[e.id];
        Account(a.cancels - {e.id}, a.contexts[m := a.contexts[m].(cancelled := true)])
    case ActionOther => a
  }

  function HandleAll(events: seq<Event>): (a: Account)
    ensures Sound(a)
  {
    if events == [] then NO_MONITORS else Handle(HandleAll(Front(events)), Last(events))
  }

  // ----- The loop in the source's form

  class CancelContext {
    const id: string
    var cancelled: bool

    constructor (id: string)
      ensures this.id == id && !cancelled
    {
      this.id := id;
      cancelled := false;
    }

    method Cancel()
      modifies this
      ensures cancelled
    {
      cancelled := true;
    }
  }

  /** The monitors spawned so far are pairwise different objects that mirror the account. */
  ghost predicate Mirrors(spawned: seq<CancelContext>, cancels: map<string, CancelContext>, a: Account)
    reads spawned
  {
    && Sound(a) && |spawned| == |a.contexts|
    && (forall i, j :: 0 <= i < j < |spawned| ==> spawned[i] != spawned[j])
    && (forall i :: 0 <= i < |spawned| ==> Context(spawned[i].id, spawned[i].cancelled) == a.contexts[i])
    && cancels.Keys == a.cancels.Keys
    && (forall id :: id in cancels ==> cancels[id] == spawned[a.cancels[id]])
  }

  /** The body of the loop for one event. */
  method HandleEvent(event: Event, spawned: seq<CancelContext>, cancels: map<string, CancelContext>, ghost a: Account)
    returns (spawned': seq<CancelContext>, cancels': map<string, CancelContext>)
    requires Mirrors(spawned, cancels, a)
    modifies spawned
    ensures Mirrors(spawned', cancels', Handle(a, event))
    ensures spawned <= spawned' && fresh(spawned'[|spawned|..])
  {
    spawned', cancels' := spawned, cancels;
    match event.action {
      case ActionStart =>
        var context := new CancelContext(event.id);
        cancels' := cancels[event.id := context];
        spawned' := spawned + [context];
      case ActionStop =>
        if event.id in cancels {
          cancels[event.id].Cancel();
          cancels' := cancels - {event.id};
        }
      case ActionOther =>
    }
  }

  /** The event loop over a finite stretch of the stream: returns the contexts handed to the goroutines. */
  method Start(events: seq<Event>) returns (spawned: seq<CancelContext>)
    ensures fresh(spawned)
    ensures |spawned| == |HandleAll(events).contexts|
    ensures forall i :: 0 <= i < |spawned| ==>
      Context(spawned[i].id, spawned[i].cancelled) == HandleAll(events).contexts[i]
    ensures forall i, j :: 0 <= i < j < |spawned| ==> spawned[i] != spawned[j]
  {
    spawned := [];
    var cancels: map<string, CancelContext> := map[];
    for i := 0 to |events|
      invariant fresh(spawned)
      invariant Mirrors(spawned, cancels, HandleAll(events[..i]))
    {
      assert Front(events[..i + 1]) == events[..i];
      ghost var before := spawned;
      spawned, cancels := HandleEvent(events[i], spawned, cancels, HandleAll(events[..i]));
      assert spawned == before + spawned[|before|..];
    }
    assert events[..|events|] == events;
  }

  // ----- Reference: counting over the stream itself

  /** Whether the latest Start or Stop of this container is a Start. */
  predicate Running(events: seq<Event>, id: string) {
    events != [] &&
    if Last(events).id == id && Last(events).action != ActionOther then Last(events).action == ActionStart
    else Running(Front(events), id)
  }

  function CountStarts(events: seq<Event>, id: string): nat {
    if events == [] then 0
    else CountStarts(Front(events), id) + if Last(events) == Event(id, ActionStart) then 1 else 0
  }

  /** The Stops that find an entry: those whose preceding Start or Stop of the same container is a Start. */
  function EffectiveStops(events: seq<Event>, id: string): nat {
    if events == [] then 0
    else EffectiveStops(Front(events), id)
         + if Last(events) == Event(id, ActionStop) && Running(Front(events), id) then 1 else 0
  }

  /** The Starts that are followed by another Start of the same container before any Stop. */
  function Repeats(events: seq<Event>, id: string): nat {
    if events == [] then 0
    else Repeats(Front(events), id)
         + if Last(events) == Event(id, ActionStart) && Running(Front(events), id) then 1 else 0
  }

  /** The monitors of this container that nothing has cancelled. */
  function Uncancelled(contexts: seq<Context>, id: string): nat {
    if contexts == [] then 0
    else Uncancelled(Front(contexts), id) + if Last(contexts) == Context(id, false) then 1 else 0
  }

  function Spawned(contexts: seq<Context>, id: string): nat {
    if contexts == [] then 0
    else Spawned(Front(contexts), id) + if Last(contexts).id == id then 1 else 0
  }

  lemma {:induction false} CancelOne(contexts: seq<Context>, m: nat, id: string)
    requires m < |contexts| && !contexts[m].cancelled
    ensures var after := contexts[m := contexts[m].(cancelled := true)];
      && Uncancelled(after, id) == Uncancelled(contexts, id) - (if contexts[m].id == id then 1 else 0)
      && Spawned(after, id) == Spawned(contexts, id)
  {
    var after := contexts[m := contexts[m].(cancelled := true)];
    if m < |contexts| - 1 {
      CancelOne(Front(contexts), m, id);
      assert Front(after) == Front(contexts)[m := contexts[m].(cancelled := true)];
    } else {
      assert Front(after) == Front(contexts);
    }
  }

  /** cancels holds exactly the running containers, each with its latest, uncancelled monitor. */
  lemma {:induction false} CancelsAreRunning(events: seq<Event>, id: string)
    ensures id in HandleAll(events).cancels <==> Running(events, id)
    ensures var a := HandleAll(events);
      id in a.cancels ==> a.contexts[a.cancels[id]] == Context(id, false)
  {
    if events != [] {
      var before, e := HandleAll(Front(events)), Last(events);
      CancelsAreRunning(Front(events), id);
      CancelsAreRunning(Front(events), e.id);
    }
  }

  /** Accounting, for any stream: every Start spawns one monitor, every Stop that finds an entry cancels one,
      and what stays uncancelled is the running monitor plus one for every repeated Start. */
  lemma {:induction false} Accounting(events: seq<Event>, id: string)
    ensures var contexts := HandleAll(events).contexts;
      && Spawned(contexts, id) == CountStarts(events, id)
      && Uncancelled(contexts, id) == CountStarts(events, id) - EffectiveStops(events, id)
      && Uncancelled(contexts, id) == Repeats(events, id) + if Running(events, id) then 1 else 0
  {
    if events != [] {
      var before, e := HandleAll(Front(events)), Last(events);
      Accounting(Front(events), id);
      CancelsAreRunning(Front(events), id);
      CancelsAreRunning(Front(events), e.id);
      match e.action
      case ActionStart => FrontOfAppend(before.contexts, Context(e.id, false));
      case ActionStop =>
        if e.id in before.cancels {
          CancelOne(before.contexts, before.cancels[e.id], id);
        }
      case ActionOther =>
    }
  }

  /** No Start of this container follows another without a Stop between them. */
  predicate Alternates(events: seq<Event>, id: string) {
    forall n :: 0 <= n < |events| && events[n] == Event(id, ActionStart) ==> !Running(events[..n], id)
  }

  lemma {:induction false} NoRepeatsIffAlternates(events: seq<Event>, id: string)
    ensures Repeats(events, id) == 0 <==> Alternates(events, id)
  {
    if events != [] {
      NoRepeatsIffAlternates(Front(events), id);
      assert forall n :: 0 <= n < |events| - 1 ==> Front(events)[..n] == events[..n] && Front(events)[n] == events[n];
      assert events[..|events| - 1] == Front(events);
    }
  }

  /** Stopping cancels everything exactly when the events of the container alternate: after a Stop, no
      monitor of it is left uncancelled if and only if no Start was repeated. */
  lemma StopCancelsAllIffAlternating(events: seq<Event>, id: string)
    requires !Running(events, id)
    ensures Uncancelled(HandleAll(events).contexts, id) == 0 <==> Alternates(events, id)
  {
    Accounting(events, id);
    NoRepeatsIffAlternates(events, id);
  }

  /** With alternating events at most one monitor per container is uncancelled. */
  lemma AlternatingKeepsOne(events: seq<Event>, id: string)
    requires Alternates(events, id)
    ensures Uncancelled(HandleAll(events).contexts, id) == if Running(events, id) then 1 else 0
  {
    Accounting(events, id);
    NoRepeatsIffAlternates(events, id);
  }

  /** The list/stream race: a container that is both announced and listed gets two monitors, and its Stop
      cancels only the second. */
  lemma RepeatedStartLeavesMonitor(id: string)
    ensures var events := [Event(id, ActionStart), Event(id, ActionStart), Event(id, ActionStop)];
      HandleAll(events).contexts == [Context(id, false), Context(id, true)]
  {
    var one, two := [Event(id, ActionStart)], [Event(id, ActionStart), Event(id, ActionStart)];
    var events := two + [Event(id, ActionStop)];
    assert Front(events) == two && Front(two) == one && Front(one) == [];
    assert HandleAll(one) == Account(map[id := 0], [Context(id, false)]);
    assert HandleAll(two).contexts == [Context(id, false), Context(id, false)] && HandleAll(two).cancels[id] == 1;
    assert events == [Event(id, ActionStart), Event(id, ActionStart), Event(id, ActionStop)];
  }

  // ----- The fate of every single monitor

  /** The ids of the Starts, in order. */
  function StartIds(events: seq<Event>): seq<string> {
    if events == [] then []
    else StartIds(Front(events)) + if Last(events).action == ActionStart then [Last(events).id] else []
  }

  /** Where the Start number m is. */
  function StartPosition(events: seq<Event>, m: nat): (p: nat)
    requires m < |StartIds(events)|
    ensures p < |events| && events[p] == Event(StartIds(events)[m], ActionStart)
  {
    if m < |StartIds(Front(events))| then StartPosition(Front(events), m) else |events| - 1
  }

  /** What comes first, if the event is looked at after others. */
  function Extend(next: Option<Action>, e: Event, id: string): Option<Action> {
    if next.Some? then next else if e.id == id && e.action != ActionOther then Some(e.action) else None
  }

  /** The first Start or Stop of this container after position p. */
  function FirstAfter(events: seq<Event>, p: nat, id: string): Option<Action> {
    if |events| <= p + 1 then None else Extend(FirstAfter(Front(events), p, id), Last(events), id)
  }

  /** What happens to the container of monitor m next, after the Start that spawned the monitor. */
  function NextAction(events: seq<Event>, m: nat): Option<Action>
    requires m < |StartIds(events)|
  {
    FirstAfter(events, StartPosition(events, m), StartIds(events)[m])
  }

  /** The monitor number m was spawned by the Start number m. */
  lemma {:induction false} ContextsAreStarts(events: seq<Event>)
    ensures var contexts := HandleAll(events).contexts;
      |contexts| == |StartIds(events)| && forall m :: 0 <= m < |contexts| ==> contexts[m].id == StartIds(events)[m]
  {
    if events != [] {
      ContextsAreStarts(Front(events));
    }
  }

  lemma NextActionStep(events: seq<Event>, m: nat)
    requires events != [] && m < |StartIds(Front(events))|
    ensures m < |StartIds(events)| && StartIds(events)[m] == StartIds(Front(events))[m]
    ensures NextAction(events, m) == Extend(NextAction(Front(events), m), Last(events), StartIds(events)[m])
  {
    assert StartPosition(events, m) == StartPosition(Front(events), m);
  }

  /** Whether the account agrees with the fate of monitor m. */
  predicate FateIs(a: Account, m: nat, next: Option<Action>)
    requires m < |a.contexts|
  {
    && (a.contexts[m].cancelled <==> next == Some(ActionStop))
    && (a.contexts[m].id in a.cancels && a.cancels[a.contexts[m].id] == m <==> next == None)
  }

  /** For any stream, each monitor on its own: it is cancelled if and only if the next Start or Stop of its
      container after the Start that spawned it is a Stop, and it is the one to be cancelled next if and only if
      there is none. */
  lemma {:induction false} FateOfMonitor(events: seq<Event>, m: nat)
    requires m < |StartIds(events)|
    ensures m < |HandleAll(events).contexts| && FateIs(HandleAll(events), m, NextAction(events, m))
  {
    ContextsAreStarts(events);
    ContextsAreStarts(Front(events));
    if m < |StartIds(Front(events))| {
      FateOfMonitor(Front(events), m);
      NextActionStep(events, m);
      CancelsAreRunning(Front(events), Last(events).id);
      FateStep(HandleAll(Front(events)), Last(events), m, NextAction(Front(events), m), NextAction(events, m));
    } else {
      assert StartPosition(events, m) == |events| - 1;
    }
  }

  lemma FateStep(a: Account, e: Event, m: nat, next: Option<Action>, after: Option<Action>)
    requires Sound(a) && m < |a.contexts| && FateIs(a, m, next)
    requires after == Extend(next, e, a.contexts[m].id)
    requires e.id in a.cancels ==> a.contexts[a.cancels[e.id]].id == e.id
    ensures m < |Handle(a, e).contexts| && FateIs(Handle(a, e), m, after)
  {
  }

  // ----- Interleaving a listing with a stream

  function Occurrences(starts: seq<Event>, id: string): nat {
    if starts == [] then 0
    else Occurrences(Front(starts), id) + if Last(starts).id == id then 1 else 0
  }

  predicate OnlyStarts(events: seq<Event>) {
    forall i :: 0 <= i < |events| ==> events[i].action == ActionStart
  }

  /** Mixing listed Starts into a stream adds at most one uncancelled monitor per listed occurrence, and one
      fewer once the container has been stopped. */
  lemma {:induction false} ListingAddsRepeats(s: seq<Event>, listed: seq<Event>, live: seq<Event>, id: string)
    requires Interleaves(s, listed, live) && OnlyStarts(listed)
    ensures Running(live, id) ==> Running(s, id)
    ensures Repeats(s, id) + (if Running(s, id) then 1 else 0)
         <= Repeats(live, id) + (if Running(live, id) then 1 else 0) + Occurrences(listed, id)
  {
    if s != [] {
      if listed != [] && Last(listed) == Last(s) && Interleaves(Front(s), Front(listed), live) {
        ListingAddsRepeats(Front(s), Front(listed), live, id);
      } else {
        ListingAddsRepeats(Front(s), listed, Front(live), id);
      }
    }
  }

  // ----- Starts that arrive after their Stop

  predicate HasStop(events: seq<Event>, id: string) {
    Event(id, ActionStop) in events
  }

  /** Whether the events of this container before a point can no longer matter after it. */
  lemma {:induction false} RunningOfConcat(a: seq<Event>, b: seq<Event>, id: string)
    ensures Running(b, id) ==> Running(a + b, id)
    ensures Running(a + b, id) ==> Running(b, id) || Running(a, id)
    ensures HasStop(b, id) ==> (Running(a + b, id) <==> Running(b, id))
  {
    if b == [] {
      assert a + b == a;
    } else {
      assert Front(a + b) == a + Front(b);
      RunningOfConcat(a, Front(b), id);
      assert b == Front(b) + [Last(b)];
    }
  }

  /** A stream without a Stop is running as soon as it has a Start. */
  lemma {:induction false} RunningWithoutStop(events: seq<Event>, id: string)
    requires !HasStop(events, id)
    ensures Running(events, id) <==> Event(id, ActionStart) in events
  {
    if events != [] {
      assert events == Front(events) + [Last(events)];
      RunningWithoutStop(Front(events), id);
    }
  }

  /** The events of an interleaving are those of its two streams. */
  lemma {:induction false} InterleavedEvents(s: seq<Event>, a: seq<Event>, b: seq<Event>, e: Event)
    requires Interleaves(s, a, b)
    ensures e in s <==> e in a || e in b
  {
    if s != [] {
      assert s == Front(s) + [Last(s)];
      if a != [] && Last(a) == Last(s) && Interleaves(Front(s), Front(a), b) {
        assert a == Front(a) + [Last(a)];
        InterleavedEvents(Front(s), Front(a), b, e);
      } else {
        assert b == Front(b) + [Last(b)];
        InterleavedEvents(Front(s), a, Front(b), e);
      }
    }
  }

  /** From some point of the interleaving on, a listed Start of the container occurs and no live Stop does. */
  ghost predicate ListedAfterLastStop(s: seq<Event>, listed: seq<Event>, live: seq<Event>, id: string) {
    exists n: nat, i: nat, j: nat ::
      CutsAt(s, listed, live, n, i, j) && Event(id, ActionStart) in listed[i..] && !HasStop(live[j..], id)
  }

  /** The last Start or Stop of a container splits a stream in two. */
  lemma {:induction false} LastStart(events: seq<Event>, id: string) returns (n: nat)
    requires Running(events, id)
    ensures n <= |events| && Event(id, ActionStart) in events[n..] && !HasStop(events[n..], id)
  {
    if Last(events) == Event(id, ActionStart) {
      n := |events| - 1;
      assert events[n..] == [Last(events)];
    } else {
      n := LastStart(Front(events), id);
      assert events[n..] == Front(events)[n..] + [Last(events)];
    }
  }

  /** A listed Start after the last live Stop keeps the container running. */
  lemma LateStartRuns(s: seq<Event>, listed: seq<Event>, live: seq<Event>, id: string, n: nat, i: nat, j: nat)
    requires CutsAt(s, listed, live, n, i, j) && OnlyStarts(listed)
    requires Event(id, ActionStart) in listed[i..] && !HasStop(live[j..], id)
    ensures Running(s, id)
  {
    InterleavedEvents(s[n..], listed[i..], live[j..], Event(id, ActionStop));
    InterleavedEvents(s[n..], listed[i..], live[j..], Event(id, ActionStart));
    RunningWithoutStop(s[n..], id);
    RunningOfConcat(s[..n], s[n..], id);
    assert s == s[..n] + s[n..];
  }

  /** With a listing mixed in, a container counts as running exactly when the live stream says so or when a
      listed Start of it was handled after its last live Stop. */
  lemma RunningIffListedLate(s: seq<Event>, listed: seq<Event>, live: seq<Event>, id: string)
    requires Interleaves(s, listed, live) && OnlyStarts(listed)
    ensures Running(s, id) <==> Running(live, id) || ListedAfterLastStop(s, listed, live, id)
  {
    if ListedAfterLastStop(s, listed, live, id) {
      var n: nat, i: nat, j: nat :|
        CutsAt(s, listed, live, n, i, j) && Event(id, ActionStart) in listed[i..] && !HasStop(live[j..], id);
      LateStartRuns(s, listed, live, id, n, i, j);
    }
    ListingAddsRepeats(s, listed, live, id);
    if Running(s, id) && !Running(live, id) {
      var n := LastStart(s, id);
      var i, j := InterleavesCut(s, listed, live, n);
      LastStartIsListed(s, listed, live, id, n, i, j);
    }
  }

  /** When the live stream does not run, the last Start of a running mix was listed, after the last live Stop. */
  lemma LastStartIsListed(s: seq<Event>, listed: seq<Event>, live: seq<Event>, id: string, n: nat, i: nat, j: nat)
    requires CutsAt(s, listed, live, n, i, j) && !Running(live, id)
    requires Event(id, ActionStart) in s[n..] && !HasStop(s[n..], id)
    ensures Event(id, ActionStart) in listed[i..] && !HasStop(live[j..], id)
  {
    InterleavedEvents(s[n..], listed[i..], live[j..], Event(id, ActionStop));
    InterleavedEvents(s[n..], listed[i..], live[j..], Event(id, ActionStart));
    RunningWithoutStop(live[j..], id);
    RunningOfConcat(live[..j], live[j..], id);
    assert live == live[..j] + live[j..];
  }
}
