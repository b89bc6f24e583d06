/**
 An ordered, identity-keyed set of listeners and its dispatch. Listeners are
 consumer code: while one runs it may register, remove, clear, throw, or cause
 another emit of the same registry. Dispatch is therefore a stack of walks, each
 over the snapshot taken when it began, and the environment picks the next step.
 */
module ListenerRegistries {
  import opened Wrappers
  import opened Channels

  /** What a listener is called with: the data of a message, or nothing it could read. */
  datatype SocketEvent = Data(frame: Frame) | Lifecycle

  /** One registration; registering the same listener again later is another one. */
  datatype Registration = Registration(id: nat, listener: nat, once: bool)

  /** One `emit` in progress: who is still to run, and who is running now. */
  datatype Walk = Walk(emit: nat, event: SocketEvent, remaining: seq<Registration>, running: Option<Registration>)

  /** Listener `who` was invoked by (or threw into) emit number `emit`, with `event`. */
  datatype Entry = Entry(emit: nat, event: SocketEvent, who: Registration)

  datatype Registry = Registry(
    listeners: seq<Registration>,
    stack: seq<Walk>,
    // History, read by no operation:
    registrations: nat,
    snapshots: seq<seq<Registration>>,    // by emit number
    events: seq<SocketEvent>,             // by emit number
    outer: seq<nat>,                      // emits begun by no listener
    handed: seq<SocketEvent>,             // their events
    log: seq<Entry>,                      // invocations
    sink: seq<Entry>,                     // throws handed to onListenerError
    doubled: set<Registration>)           // once, and due in two walks at a time

  const NEW_REGISTRY := Registry([], [], 0, [], [], [], [], [], [], {})

  datatype Event =
    | Add(listener: nat, once: bool)
    | Remove(listener: nat)
    | Clear
    | BeginEmit(event: SocketEvent)
    | Next              // the loop reaches the next listener
    | Return(threw: bool)
    | EndEmit

  function Top(r: Registry): Walk
    requires r.stack != []
  {
    r.stack[|r.stack| - 1]
  }

  function WithTop(r: Registry, w: Walk): Registry
    requires r.stack != []
  {
    r.(stack := r.stack[..|r.stack| - 1] + [w])
  }

  /** Code outside the loop has control. */
  predicate Outside(r: Registry) {
    r.stack == [] || Top(r).running.Some?
  }

  predicate Has(listeners: seq<Registration>, listener: nat) {
    exists k :: 0 <= k < |listeners| && listeners[k].listener == listener
  }

  function Without(listeners: seq<Registration>, listener: nat): seq<Registration> {
    if listeners == [] then []
    else if listeners[0].listener == listener then Without(listeners[1..], listener)
    else [listeners[0]] + Without(listeners[1..], listener)
  }

  function AddListener(r: Registry, listener: nat, once: bool): Registry {
    if Has(r.listeners, listener) then r
    else r.(listeners := r.listeners + [Registration(r.registrations, listener, once)], registrations := r.registrations + 1)
  }

  /** Walks other than the running ones in which `x` is still to come. */
  function Due(stack: seq<Walk>, x: Registration): nat {
    if stack == [] then 0
    else Due(stack[..|stack| - 1], x) + multiset(stack[|stack| - 1].remaining)[x]
  }

  function Begin(r: Registry, event: SocketEvent): Registry {
    r.(stack := r.stack + [Walk(|r.snapshots|, event, r.listeners, None)],
       snapshots := r.snapshots + [r.listeners],
       events := r.events + [event],
       outer := if r.stack == [] then r.outer + [|r.snapshots|] else r.outer,
       handed := if r.stack == [] then r.handed + [event] else r.handed,
       doubled := r.doubled + set x | x in r.listeners && x.once && Due(r.stack, x) > 0)
  }

  /** A `once` listener is removed before it runs. */
  function RunNext(r: Registry): Registry
    requires r.stack != [] && Top(r).remaining != []
  {
    var w := Top(r);
    var x := w.remaining[0];
    var t := WithTop(r, w.(remaining := w.remaining[1..], running := Some(x)));
    t.(listeners := if x.once then Without(t.listeners, x.listener) else t.listeners,
       log := t.log + [Entry(w.emit, w.event, x)])
  }

  function Step(r: Registry, e: Event): Registry {
    match e
    case Add(l, once) => if Outside(r) then AddListener(r, l, once) else r
    case Remove(l) => if Outside(r) then r.(listeners := Without(r.listeners, l)) else r
    case Clear => if Outside(r) then r.(listeners := []) else r
    case BeginEmit(event) => if Outside(r) then Begin(r, event) else r
    case Next => if r.stack != [] && Top(r).running.None? && Top(r).remaining != [] then RunNext(r) else r
    case Return(threw) =>
      if r.stack == [] || Top(r).running.None? then r
      else
        var w := Top(r);
        var t := WithTop(r, w.(running := None));
        if threw then t.(sink := t.sink + [Entry(w.emit, w.event, w.running.value)]) else t
    case EndEmit =>
      if r.stack != [] && Top(r).running.None? && Top(r).remaining == []
      then r.(stack := r.stack[..|r.stack| - 1]) else r
  }

  function RunFrom(r: Registry, events: seq<Event>): Registry {
    if events == [] then r
    else Step(RunFrom(r, events[..|events| - 1]), events[|events| - 1])
  }

  function Run(events: seq<Event>): Registry {
    RunFrom(NEW_REGISTRY, events)
  }

  // ---------- isolated, ordered dispatch ----------

  /** Whom emit `e` invoked, in order. */
  function InvokedBy(log: seq<Entry>, e: nat): seq<Registration> {
    if log == [] then []
    else
      var rest := InvokedBy(log[..|log| - 1], e);
      if log[|log| - 1].emit == e then rest + [log[|log| - 1].who] else rest
  }

  /** Whom emit `e` has still to invoke. */
  function Left(stack: seq<Walk>, e: nat): seq<Registration> {
    if stack == [] then []
    else if stack[|stack| - 1].emit == e then stack[|stack| - 1].remaining
    else Left(stack[..|stack| - 1], e)
  }

  /** The walks of the stack, innermost last, carry the events of their emits. */
  ghost predicate WalksOk(r: Registry) {
    && (forall i :: 0 <= i < |r.stack| ==> r.stack[i].emit < |r.events| && r.stack[i].event == r.events[r.stack[i].emit])
    && (forall i, j :: 0 <= i < j < |r.stack| ==> r.stack[i].emit < r.stack[j].emit)
  }

  ghost predicate LogOk(r: Registry) {
    forall k :: 0 <= k < |r.log| ==> r.log[k].emit < |r.events| && r.log[k].event == r.events[r.log[k].emit]
  }

  ghost predicate OuterOk(r: Registry) {
    && |r.outer| == |r.handed|
    && (forall k :: 0 <= k < |r.outer| ==> r.outer[k] < |r.events| && r.events[r.outer[k]] == r.handed[k])
    && (forall j, k :: 0 <= j < k < |r.outer| ==> r.outer[j] < r.outer[k])
  }

  ghost predicate Nested(r: Registry) {
    |r.events| == |r.snapshots| && WalksOk(r) && LogOk(r) && OuterOk(r)
  }

  ghost predicate Dispatched(r: Registry) {
    && Nested(r)
    && forall e :: 0 <= e < |r.snapshots| ==> InvokedBy(r.log, e) + Left(r.stack, e) == r.snapshots[e]
  }

  lemma {:induction false} NothingInvoked(log: seq<Entry>, e: nat)
    requires forall k :: 0 <= k < |log| ==> log[k].emit < e
    ensures InvokedBy(log, e) == []
  {
    if log != [] {
      NothingInvoked(log[..|log| - 1], e);
    }
  }

  lemma {:induction false} NothingLeft(stack: seq<Walk>, e: nat)
    requires forall i :: 0 <= i < |stack| ==> stack[i].emit != e
    ensures Left(stack, e) == []
  {
    if stack != [] {
      NothingLeft(stack[..|stack| - 1], e);
    }
  }

  lemma BeginWalks(r: Registry, event: SocketEvent)
    requires WalksOk(r) && |r.events| == |r.snapshots|
    ensures WalksOk(Begin(r, event))
  {
  }

  lemma BeginLog(r: Registry, event: SocketEvent)
    requires LogOk(r)
    ensures LogOk(Begin(r, event))
  {
  }

  lemma BeginOuter(r: Registry, event: SocketEvent)
    requires OuterOk(r) && |r.events| == |r.snapshots|
    ensures OuterOk(Begin(r, event))
  {
  }

  lemma BeginNested(r: Registry, event: SocketEvent)
    requires Nested(r)
    ensures Nested(Begin(r, event))
  {
    hide WalksOk, LogOk, OuterOk;
    BeginWalks(r, event);
    BeginLog(r, event);
    BeginOuter(r, event);
  }

  lemma BeginLeft(r: Registry, event: SocketEvent, e: nat)
    requires Nested(r)
    ensures Left(Begin(r, event).stack, e) == if e == |r.snapshots| then r.listeners else Left(r.stack, e)
  {
    assert Begin(r, event).stack[..|r.stack|] == r.stack;
  }

  lemma BeginDispatches(r: Registry, event: SocketEvent)
    requires Dispatched(r)
    ensures Dispatched(Begin(r, event))
  {
    var t := Begin(r, event);
    hide Nested, Left;
    BeginNested(r, event);
    forall e | 0 <= e < |t.snapshots| ensures InvokedBy(t.log, e) + Left(t.stack, e) == t.snapshots[e] {
      BeginLeft(r, event, e);
      if e == |r.snapshots| {
        NothingInvokedYet(r);
      }
    }
  }

  lemma NothingInvokedYet(r: Registry)
    requires Nested(r)
    ensures InvokedBy(r.log, |r.snapshots|) == []
  {
    NothingInvoked(r.log, |r.snapshots|);
  }

  lemma NextDispatches(r: Registry)
    requires Dispatched(r) && r.stack != [] && Top(r).remaining != []
    ensures Dispatched(RunNext(r))
  {
    var t, w := RunNext(r), Top(r);
    assert t.stack[..|t.stack| - 1] == r.stack[..|r.stack| - 1];
    assert t.log[..|t.log| - 1] == r.log;
    forall e | 0 <= e < |t.snapshots| ensures InvokedBy(t.log, e) + Left(t.stack, e) == t.snapshots[e] {
      if e == w.emit {
        assert InvokedBy(r.log, e) + [w.remaining[0]] + w.remaining[1..] == InvokedBy(r.log, e) + w.remaining;
      }
    }
  }

  lemma EndDispatches(r: Registry)
    requires Dispatched(r) && r.stack != [] && Top(r).remaining == []
    ensures Dispatched(r.(stack := r.stack[..|r.stack| - 1]))
  {
    var t := r.(stack := r.stack[..|r.stack| - 1]);
    forall e | 0 <= e < |t.snapshots| ensures InvokedBy(t.log, e) + Left(t.stack, e) == t.snapshots[e] {
      if e == Top(r).emit {
        NothingLeft(t.stack, e);
      }
    }
  }

  lemma ReturnLeft(r: Registry, w: Walk, e: nat)
    requires r.stack != [] && w.emit == Top(r).emit && w.remaining == Top(r).remaining
    ensures Left(WithTop(r, w).stack, e) == Left(r.stack, e)
  {
    assert WithTop(r, w).stack[..|r.stack| - 1] == r.stack[..|r.stack| - 1];
  }

  lemma ReturnNested(r: Registry, w: Walk)
    requires Nested(r) && r.stack != [] && w.emit == Top(r).emit && w.event == Top(r).event
    ensures Nested(WithTop(r, w))
  {
  }

  lemma ReturnDispatches(r: Registry, threw: bool)
    requires Dispatched(r)
    ensures Dispatched(Step(r, Return(threw)))
  {
    if r.stack != [] && Top(r).running.Some? {
      var w := Top(r).(running := None);
      ReturnNested(r, w);
      forall e | 0 <= e < |r.snapshots| ensures Left(WithTop(r, w).stack, e) == Left(r.stack, e) {
        ReturnLeft(r, w, e);
      }
    }
  }

  lemma StepDispatches(r: Registry, e: Event)
    requires Dispatched(r)
    ensures Dispatched(Step(r, e))
  {
    match e
    case BeginEmit(event) => BeginDispatches(r, event);
    case Next => if r.stack != [] && Top(r).remaining != [] { NextDispatches(r); }
    case EndEmit => if r.stack != [] && Top(r).remaining == [] { EndDispatches(r); }
    case Return(threw) => ReturnDispatches(r, threw);
    case _ =>
  }

  lemma {:induction false} RunDispatches(events: seq<Event>)
    ensures Dispatched(Run(events))
  {
    if events != [] {
      RunDispatches(events[..|events| - 1]);
      StepDispatches(Run(events[..|events| - 1]), events[|events| - 1]);
    }
  }

  /**
   Isolated ordered dispatch. Whatever listeners register, remove, clear, throw
   or emit: every emit that is over has invoked exactly its starting snapshot, in
   registration order, each entry once; one in progress has invoked a prefix.
   Every invocation was handed the event its emit began with; the emits that no
   listener began were handed the recorded events, in order.
   */
  lemma EmitWalksItsSnapshot(events: seq<Event>, e: nat)
    requires e < |Run(events).snapshots|
    ensures InvokedBy(Run(events).log, e) <= Run(events).snapshots[e]
    ensures e < |Run(events).events|
    ensures forall k :: 0 <= k < |Run(events).log| && Run(events).log[k].emit == e ==>
              Run(events).log[k].event == Run(events).events[e]
    ensures |Run(events).outer| == |Run(events).handed|
    ensures forall k :: 0 <= k < |Run(events).outer| ==>
              Run(events).outer[k] < |Run(events).events| && Run(events).events[Run(events).outer[k]] == Run(events).handed[k]
    ensures (forall i :: 0 <= i < |Run(events).stack| ==> Run(events).stack[i].emit != e) ==>
              InvokedBy(Run(events).log, e) == Run(events).snapshots[e]
  {
    RunDispatches(events);
    if forall i :: 0 <= i < |Run(events).stack| ==> Run(events).stack[i].emit != e {
      NothingLeft(Run(events).stack, e);
    }
  }

  // ---------- once ----------

  function Invocations(log: seq<Entry>, x: Registration): nat {
    if log == [] then 0
    else Invocations(log[..|log| - 1], x) + if log[|log| - 1].who == x then 1 else 0
  }

  /** Invocations so far and to come. */
  function Total(r: Registry, x: Registration): nat {
    Invocations(r.log, x) + Due(r.stack, x)
  }

  /** No two entries for one listener; registration numbers are used once. */
  ghost predicate Keyed(r: Registry) {
    && (forall i, j :: 0 <= i < j < |r.listeners| ==> r.listeners[i].listener != r.listeners[j].listener)
    && (forall x :: x in r.listeners ==> x.id < r.registrations)
    && (forall x :: Total(r, x) > 0 ==> x.id < r.registrations)
  }

  ghost predicate OnceOk(r: Registry) {
    && (forall x :: x in r.listeners && x.once ==> Invocations(r.log, x) == 0)
    && (forall x: Registration :: x.once ==> (Total(r, x) >= 2 <==> x in r.doubled))
  }

  lemma {:induction false} WithoutKeeps(listeners: seq<Registration>, listener: nat)
    ensures forall x :: x in Without(listeners, listener) <==> x in listeners && x.listener != listener
    ensures (forall i, j :: 0 <= i < j < |listeners| ==> listeners[i].listener != listeners[j].listener) ==>
              forall i, j :: 0 <= i < j < |Without(listeners, listener)| ==>
                Without(listeners, listener)[i].listener != Without(listeners, listener)[j].listener
  {
    if listeners != [] {
      WithoutKeeps(listeners[1..], listener);
    }
  }

  lemma {:induction false} DistinctOnce(listeners: seq<Registration>, x: Registration)
    requires forall i, j :: 0 <= i < j < |listeners| ==> listeners[i].listener != listeners[j].listener
    ensures multiset(listeners)[x] == if x in listeners then 1 else 0
  {
    if listeners != [] {
      assert listeners == [listeners[0]] + listeners[1..];
      DistinctOnce(listeners[1..], x);
    }
  }

  lemma BeginTotals(r: Registry, event: SocketEvent, x: Registration)
    requires Keyed(r)
    ensures Total(Begin(r, event), x) == Total(r, x) + if x in r.listeners then 1 else 0
  {
    assert Begin(r, event).stack[..|r.stack|] == r.stack;
    DistinctOnce(r.listeners, x);
  }

  lemma NextTotals(r: Registry, x: Registration)
    requires r.stack != [] && Top(r).remaining != []
    ensures Total(RunNext(r), x) == Total(r, x)
    ensures Invocations(RunNext(r).log, x) == Invocations(r.log, x) + if x == Top(r).remaining[0] then 1 else 0
  {
    var t, w := RunNext(r), Top(r);
    assert t.stack[..|t.stack| - 1] == r.stack[..|r.stack| - 1];
    assert t.log[..|t.log| - 1] == r.log;
    assert w.remaining == [w.remaining[0]] + w.remaining[1..];
  }

  lemma BeginOnce(r: Registry, event: SocketEvent)
    requires Keyed(r) && OnceOk(r)
    ensures Keyed(Begin(r, event)) && OnceOk(Begin(r, event))
  {
    forall x: Registration
      ensures Total(Begin(r, event), x) == Total(r, x) + if x in r.listeners then 1 else 0
    {
      BeginTotals(r, event, x);
    }
  }

  lemma NextOnce(r: Registry)
    requires Keyed(r) && OnceOk(r) && r.stack != [] && Top(r).remaining != []
    ensures Keyed(RunNext(r)) && OnceOk(RunNext(r))
  {
    var t := RunNext(r);
    WithoutKeeps(r.listeners, Top(r).remaining[0].listener);
    forall x: Registration
      ensures Total(t, x) == Total(r, x)
      ensures Invocations(t.log, x) == Invocations(r.log, x) + if x == Top(r).remaining[0] then 1 else 0
    {
      NextTotals(r, x);
    }
  }

  /** Steps that move nothing between the walks and the log. */
  lemma SameTotals(r: Registry, t: Registry, x: Registration)
    requires t.log == r.log
    requires |t.stack| == |r.stack| && forall i :: 0 <= i < |r.stack| ==> t.stack[i].remaining == r.stack[i].remaining
    ensures Total(t, x) == Total(r, x)
  {
    SameDue(r.stack, t.stack, x);
  }

  lemma {:induction false} SameDue(s: seq<Walk>, t: seq<Walk>, x: Registration)
    requires |s| == |t| && forall i :: 0 <= i < |s| ==> t[i].remaining == s[i].remaining
    ensures Due(s, x) == Due(t, x)
  {
    if s != [] {
      SameDue(s[..|s| - 1], t[..|t| - 1], x);
    }
  }

  /** Steps that change neither totals nor the log, and register nothing. */
  lemma StillOnce(r: Registry, t: Registry)
    requires Keyed(r) && OnceOk(r)
    requires t == r.(stack := t.stack, sink := t.sink)
    requires forall x: Registration :: Total(t, x) == Total(r, x)
    ensures Keyed(t) && OnceOk(t)
  {
  }

  lemma EndOnce(r: Registry)
    requires Keyed(r) && OnceOk(r) && r.stack != [] && Top(r).remaining == []
    ensures Keyed(Step(r, EndEmit)) && OnceOk(Step(r, EndEmit))
  {
    var t := r.(stack := r.stack[..|r.stack| - 1]);
    forall x: Registration ensures Total(t, x) == Total(r, x) {
      assert multiset(Top(r).remaining)[x] == 0;
    }
    StillOnce(r, t);
  }

  lemma ReturnOnce(r: Registry, threw: bool)
    requires Keyed(r) && OnceOk(r) && r.stack != [] && Top(r).running.Some?
    ensures Keyed(Step(r, Return(threw))) && OnceOk(Step(r, Return(threw)))
  {
    var t := Step(r, Return(threw));
    forall x: Registration ensures Total(t, x) == Total(r, x) {
      SameTotals(r, t, x);
    }
    StillOnce(r, t);
  }

  lemma AddOnce(r: Registry, l: nat, once: bool)
    requires Keyed(r) && OnceOk(r)
    ensures Keyed(AddListener(r, l, once)) && OnceOk(AddListener(r, l, once))
  {
    var t := AddListener(r, l, once);
    assert forall x: Registration :: Total(t, x) == Total(r, x);
    assert Total(r, Registration(r.registrations, l, once)) == 0;
  }

  lemma RemoveOnce(r: Registry, l: nat)
    requires Keyed(r) && OnceOk(r)
    ensures Keyed(Step(r, Remove(l))) && OnceOk(Step(r, Remove(l)))
  {
    WithoutKeeps(r.listeners, l);
    assert forall x: Registration :: Total(Step(r, Remove(l)), x) == Total(r, x);
  }

  lemma ClearOnce(r: Registry)
    requires Keyed(r) && OnceOk(r)
    ensures Keyed(Step(r, Clear)) && OnceOk(Step(r, Clear))
  {
    assert forall x: Registration :: Total(Step(r, Clear), x) == Total(r, x);
  }

  lemma StepOnce(r: Registry, e: Event)
    requires Keyed(r) && OnceOk(r)
    ensures Keyed(Step(r, e)) && OnceOk(Step(r, e))
  {
    match e
    case BeginEmit(event) => BeginOnce(r, event);
    case Next => if r.stack != [] && Top(r).remaining != [] { NextOnce(r); }
    case EndEmit => if r.stack != [] && Top(r).remaining == [] { EndOnce(r); }
    case Return(threw) => if r.stack != [] && Top(r).running.Some? { ReturnOnce(r, threw); }
    case Remove(l) => RemoveOnce(r, l);
    case Add(l, once) => AddOnce(r, l, once);
    case Clear => ClearOnce(r);
  }

  lemma {:induction false} RunOnce(events: seq<Event>)
    ensures Keyed(Run(events)) && OnceOk(Run(events))
  {
    if events != [] {
      RunOnce(events[..|events| - 1]);
      StepOnce(Run(events[..|events| - 1]), events[|events| - 1]);
    }
  }

  /** An emit begins while `x` is registered and still due in an emit around it. */
  predicate Doubles(r: Registry, e: Event, x: Registration) {
    e.BeginEmit? && Outside(r) && x in r.listeners && Due(r.stack, x) > 0
  }

  ghost predicate EverDoubles(events: seq<Event>, x: Registration) {
    exists k :: 0 <= k < |events| && Doubles(Run(events[..k]), events[k], x)
  }

  lemma StepDoubles(r: Registry, e: Event, x: Registration)
    requires x.once
    ensures x in Step(r, e).doubled <==> x in r.doubled || Doubles(r, e, x)
  {
  }

  lemma EverSnoc(events: seq<Event>, x: Registration)
    requires events != []
    ensures var n := |events| - 1;
            EverDoubles(events, x) <==> EverDoubles(events[..n], x) || Doubles(Run(events[..n]), events[n], x)
  {
    hide Run, Doubles;
    var n := |events| - 1;
    assert forall k :: 0 <= k < n ==> events[..n][..k] == events[..k] && events[..n][k] == events[k];
    if EverDoubles(events[..n], x) {
      var k :| 0 <= k < n && Doubles(Run(events[..n][..k]), events[..n][k], x);
      assert Doubles(Run(events[..k]), events[k], x);
    }
    if EverDoubles(events, x) {
      var k :| 0 <= k < |events| && Doubles(Run(events[..k]), events[k], x);
      assert k < n ==> Doubles(Run(events[..n][..k]), events[..n][k], x);
    }
  }

  lemma {:induction false} RunDoubles(events: seq<Event>, x: Registration)
    requires x.once
    ensures x in Run(events).doubled <==> EverDoubles(events, x)
  {
    hide Step, Doubles, EverDoubles;
    if events == [] {
      assert !EverDoubles(events, x) by { NeverDoubled(x); }
    } else {
      var n := |events| - 1;
      RunDoubles(events[..n], x);
      StepDoubles(Run(events[..n]), events[n], x);
      EverSnoc(events, x);
    }
  }

  lemma NeverDoubled(x: Registration)
    ensures !EverDoubles([], x)
  {
  }

  /**
   A `once` registration is invoked at most once by the time all emits are over,
   unless an emit began while it was still registered and already due in an
   enclosing emit; in that case, and only then, it is invoked again.
   */
  lemma OnceIff(events: seq<Event>, x: Registration)
    requires x.once && Run(events).stack == []
    ensures Invocations(Run(events).log, x) <= 1 <==> !EverDoubles(events, x)
  {
    RunOnce(events);
    RunDoubles(events, x);
    assert Total(Run(events), x) == Invocations(Run(events).log, x);
  }

  /** No listener causes an emit of the registry that is running it. */
  ghost predicate Flat(events: seq<Event>) {
    forall k :: 0 <= k <= |events| ==> |Run(events[..k]).stack| <= 1
  }

  lemma FlatInit(events: seq<Event>, n: nat)
    requires Flat(events) && |events| == n + 1
    ensures Flat(events[..n]) && |Run(events[..n]).stack| <= 1 && |Run(events).stack| <= 1
  {
    assert forall k :: 0 <= k <= n ==> events[..n][..k] == events[..k];
    assert events[..|events|] == events;
  }

  /** A step between two moments at which no emit is nested doubles nothing. */
  lemma FlatStep(r: Registry, e: Event)
    requires |r.stack| <= 1 && |Step(r, e).stack| <= 1
    ensures Step(r, e).doubled == r.doubled
  {
  }

  lemma {:induction false} FlatDoublesNothing(events: seq<Event>)
    requires Flat(events)
    ensures Run(events).doubled == {}
  {
    if events != [] {
      var n := |events| - 1;
      FlatInit(events, n);
      FlatDoublesNothing(events[..n]);
      FlatStep(Run(events[..n]), events[n]);
    }
  }

  /** Where no listener causes an emit, a `once` registration is invoked at most once, at any moment. */
  lemma FlatIsSingleFire(events: seq<Event>, x: Registration)
    requires Flat(events) && x.once
    ensures Invocations(Run(events).log, x) <= 1
  {
    FlatDoublesNothing(events);
    RunOnce(events);
    assert Total(Run(events), x) < 2;
  }

  lemma {:induction false} RunAppends(r: Registry, front: seq<Event>, back: seq<Event>)
    ensures RunFrom(r, front + back) == RunFrom(RunFrom(r, front), back)
  {
    if back == [] {
      assert front + back == front;
    } else {
      assert (front + back)[..|front + back| - 1] == front + back[..|back| - 1];
      RunAppends(r, front, back[..|back| - 1]);
    }
  }

  lemma RunOne(r: Registry, e: Event)
    ensures RunFrom(r, [e]) == Step(r, e)
  {
    assert [e][..0] == [];
  }

  const FIRST_WALK := [Add(7, false), Add(8, true), BeginEmit(Lifecycle), Next]
  const SECOND_WALK := [BeginEmit(Lifecycle), Next, Return(false), Next]
  const BACK := [Return(false), EndEmit, Return(false), Next]
  const A := Registration(0, 7, false)
  const B := Registration(1, 8, true)

  /** Two listeners, the first of them running. */
  const FIRST := Registry([A, B], [Walk(0, Lifecycle, [B], Some(A))], 2, [[A, B]], [Lifecycle], [0], [Lifecycle], [Entry(0, Lifecycle, A)], [], {})

  /** It has emitted, and the second listener runs in that emit. */
  const SECOND := Registry([A], [Walk(0, Lifecycle, [B], Some(A)), Walk(1, Lifecycle, [], Some(B))], 2, [[A, B], [A, B]], [Lifecycle, Lifecycle], [0], [Lifecycle],
                           [Entry(0, Lifecycle, A), Entry(1, Lifecycle, A), Entry(1, Lifecycle, B)], [], {B})

  lemma FourSteps(r: Registry, events: seq<Event>)
    requires |events| == 4
    ensures RunFrom(r, events) == Step(Step(Step(Step(r, events[0]), events[1]), events[2]), events[3])
  {
    assert events[..3][..2] == events[..2] && events[..2][..1] == events[..1] == [events[0]];
    RunOne(r, events[0]);
    assert RunFrom(r, events[..2]) == Step(RunFrom(r, events[..1]), events[1]);
    assert RunFrom(r, events[..3]) == Step(RunFrom(r, events[..2]), events[2]);
  }

  /** Both listeners are registered. */
  const BOTH := Registry([A, B], [], 2, [], [], [], [], [], [], {})

  lemma Registers()
    ensures Step(Step(NEW_REGISTRY, Add(7, false)), Add(8, true)) == BOTH
  {
    var a := Step(NEW_REGISTRY, Add(7, false));
    assert a == Registry([A], [], 1, [], [], [], [], [], [], {});
  }

  lemma FirstBegins()
    ensures Step(Step(BOTH, BeginEmit(Lifecycle)), Next) == FIRST
  {
    var c := Step(BOTH, BeginEmit(Lifecycle));
    assert c == BOTH.(stack := [Walk(0, Lifecycle, [A, B], None)], snapshots := [[A, B]], events := [Lifecycle], outer := [0], handed := [Lifecycle]);
    assert [A, B][1..] == [B];
  }

  lemma FirstWalk()
    ensures Run(FIRST_WALK) == FIRST
  {
    FourSteps(NEW_REGISTRY, FIRST_WALK);
    Registers();
    FirstBegins();
  }

  lemma WithoutB()
    ensures Without([A, B], 8) == [A]
  {
    assert [A, B][1..] == [B] && [B][1..] == [];
    assert Without([B], 8) == [];
  }

  lemma NestedBegins()
    ensures Step(FIRST, BeginEmit(Lifecycle))
         == FIRST.(stack := [Walk(0, Lifecycle, [B], Some(A)), Walk(1, Lifecycle, [A, B], None)], snapshots := [[A, B], [A, B]], events := [Lifecycle, Lifecycle], doubled := {B})
  {
    assert FIRST.stack[..0] == [];
    assert Due(FIRST.stack, A) == 0 && Due(FIRST.stack, B) == 1;
  }

  lemma FirstRunsAgain()
    ensures Step(Step(Step(FIRST, BeginEmit(Lifecycle)), Next), Return(false))
         == FIRST.(stack := [Walk(0, Lifecycle, [B], Some(A)), Walk(1, Lifecycle, [B], None)], snapshots := [[A, B], [A, B]], events := [Lifecycle, Lifecycle],
                   log := [Entry(0, Lifecycle, A), Entry(1, Lifecycle, A)], doubled := {B})
  {
    NestedBegins();
    assert [A, B][1..] == [B];
    var b := Step(Step(FIRST, BeginEmit(Lifecycle)), Next);
    assert b.stack == [Walk(0, Lifecycle, [B], Some(A)), Walk(1, Lifecycle, [B], Some(A))];
  }

  lemma SecondRuns()
    ensures Step(FIRST.(stack := [Walk(0, Lifecycle, [B], Some(A)), Walk(1, Lifecycle, [B], None)],
                        snapshots := [[A, B], [A, B]], events := [Lifecycle, Lifecycle],
                        log := [Entry(0, Lifecycle, A), Entry(1, Lifecycle, A)], doubled := {B}), Next)
         == SECOND
  {
    WithoutB();
    assert [B][1..] == [];
  }

  lemma SecondWalk()
    ensures RunFrom(FIRST, SECOND_WALK) == SECOND
  {
    FourSteps(FIRST, SECOND_WALK);
    FirstRunsAgain();
    SecondRuns();
  }

  lemma InnerEnds()
    ensures Step(Step(SECOND, Return(false)), EndEmit) == SECOND.(stack := [Walk(0, Lifecycle, [B], Some(A))])
  {
    assert Step(SECOND, Return(false)).stack == [Walk(0, Lifecycle, [B], Some(A)), Walk(1, Lifecycle, [], None)];
  }

  lemma OuterGoesOn()
    ensures Step(SECOND.(stack := [Walk(0, Lifecycle, [B], Some(A))]), Return(false)) == SECOND.(stack := [Walk(0, Lifecycle, [B], None)])
  {
  }

  lemma LastNext()
    ensures var d := Step(SECOND.(stack := [Walk(0, Lifecycle, [B], None)]), Next);
            d.log == [Entry(0, Lifecycle, A), Entry(1, Lifecycle, A), Entry(1, Lifecycle, B), Entry(0, Lifecycle, B)] && d.doubled == {B}
  {
  }

  lemma WalksBack()
    ensures RunFrom(SECOND, BACK).log == [Entry(0, Lifecycle, A), Entry(1, Lifecycle, A), Entry(1, Lifecycle, B), Entry(0, Lifecycle, B)]
    ensures RunFrom(SECOND, BACK).doubled == {B}
  {
    FourSteps(SECOND, BACK);
    InnerEnds();
    OuterGoesOn();
    LastNext();
  }

  /** A plain listener emits while the `once` listener behind it is still due: that one runs twice. */
  lemma NestedEmitRunsOnceTwice()
    ensures var r := Run(FIRST_WALK + SECOND_WALK + BACK);
            && r.log == [Entry(0, Lifecycle, A), Entry(1, Lifecycle, A), Entry(1, Lifecycle, B), Entry(0, Lifecycle, B)]
            && B.once && EverDoubles(FIRST_WALK + SECOND_WALK + BACK, B)
  {
    RunAppends(NEW_REGISTRY, FIRST_WALK + SECOND_WALK, BACK);
    RunAppends(NEW_REGISTRY, FIRST_WALK, SECOND_WALK);
    FirstWalk();
    SecondWalk();
    WalksBack();
    RunDoubles(FIRST_WALK + SECOND_WALK + BACK, B);
  }

  // ---------- the registry itself ----------

  /** What a listener does with the registry while it runs: change it, or have it emit again. */
  datatype Act = Change(e: Event) | Again(event: SocketEvent, script: Script)

  /** All it does, and how it ends. */
  datatype Reaction = Reaction(acts: seq<Act>, threw: bool)

  /** What each listener of a walk does, in walk order; those beyond the end do nothing. */
  datatype Script = Script(reactions: seq<Reaction>)

  predicate IsChange(e: Event) {
    e.Add? || e.Remove? || e.Clear?
  }

  /** An emit and everything its listeners do, as steps of the registry. */
  function Emitted(r: Registry, event: SocketEvent, script: Script): Registry
    decreases script, 2, 0
  {
    Step(Walked(Step(r, BeginEmit(event)), script, 0, |r.listeners|), EndEmit)
  }

  /** The loop from listener `i` to listener `n`. */
  function Walked(r: Registry, script: Script, i: nat, n: nat): Registry
    decreases script, 1, n - i
  {
    if i >= n then r else Walked(Turn(r, script, i), script, i + 1, n)
  }

  /** Listener `i` is invoked and returns. */
  function Turn(r: Registry, script: Script, i: nat): Registry
    decreases script, 0, 0
  {
    if i < |script.reactions| then Reacted(Step(r, Next), script.reactions[i]) else Step(Step(r, Next), Return(false))
  }

  function Reacted(r: Registry, reaction: Reaction): Registry
    decreases reaction, 1, 0
  {
    Step(Acted(r, reaction, |reaction.acts|), Return(reaction.threw))
  }

  /** The first `k` acts of a listener. */
  function Acted(r: Registry, reaction: Reaction, k: nat): Registry
    requires k <= |reaction.acts|
    decreases reaction, 0, k
  {
    if k == 0 then r else Performed(Acted(r, reaction, k - 1), reaction.acts[k - 1])
  }

  function Performed(r: Registry, act: Act): Registry
    decreases act, 3, 0
  {
    match act
    case Change(e) => if IsChange(e) then Step(r, e) else r
    case Again(event, script) => Emitted(r, event, script)
  }

  // ---------- an emit is a run of steps ----------

  ghost predicate Reaches(r: Registry, t: Registry) {
    exists events :: RunFrom(r, events) == t
  }

  lemma {:induction false} ReachesStep(r: Registry, t: Registry, e: Event)
    requires Reaches(r, t)
    ensures Reaches(r, Step(t, e))
  {
    var events :| RunFrom(r, events) == t;
    RunAppends(r, events, [e]);
    RunOne(t, e);
  }

  /** So whatever holds of every run holds of the registry after any emit. */
  lemma {:induction false} EmittedReaches(r: Registry, t: Registry, event: SocketEvent, script: Script)
    requires Reaches(r, t)
    ensures Reaches(r, Emitted(t, event, script))
    decreases script, 2, 0
  {
    ReachesStep(r, t, BeginEmit(event));
    WalkedReaches(r, Step(t, BeginEmit(event)), script, 0, |t.listeners|);
    ReachesStep(r, Walked(Step(t, BeginEmit(event)), script, 0, |t.listeners|), EndEmit);
  }

  lemma {:induction false} WalkedReaches(r: Registry, t: Registry, script: Script, i: nat, n: nat)
    requires Reaches(r, t)
    ensures Reaches(r, Walked(t, script, i, n))
    decreases script, 1, n - i
  {
    if i < n {
      TurnReaches(r, t, script, i);
      WalkedReaches(r, Turn(t, script, i), script, i + 1, n);
    }
  }

  lemma {:induction false} TurnReaches(r: Registry, t: Registry, script: Script, i: nat)
    requires Reaches(r, t)
    ensures Reaches(r, Turn(t, script, i))
    decreases script, 0, 0
  {
    ReachesStep(r, t, Next);
    if i < |script.reactions| {
      ReactedReaches(r, Step(t, Next), script.reactions[i]);
    } else {
      ReachesStep(r, Step(t, Next), Return(false));
    }
  }

  lemma {:induction false} ReactedReaches(r: Registry, t: Registry, reaction: Reaction)
    requires Reaches(r, t)
    ensures Reaches(r, Reacted(t, reaction))
    decreases reaction, 1, 0
  {
    ActedReaches(r, t, reaction, |reaction.acts|);
    ReachesStep(r, Acted(t, reaction, |reaction.acts|), Return(reaction.threw));
  }

  lemma {:induction false} ActedReaches(r: Registry, t: Registry, reaction: Reaction, k: nat)
    requires Reaches(r, t) && k <= |reaction.acts|
    ensures Reaches(r, Acted(t, reaction, k))
    decreases reaction, 0, k
  {
    if k > 0 {
      ActedReaches(r, t, reaction, k - 1);
      PerformedReaches(r, Acted(t, reaction, k - 1), reaction.acts[k - 1]);
    }
  }

  lemma {:induction false} PerformedReaches(r: Registry, t: Registry, act: Act)
    requires Reaches(r, t)
    ensures Reaches(r, Performed(t, act))
    decreases act, 3, 0
  {
    match act
    case Change(e) => if IsChange(e) { ReachesStep(r, t, e); }
    case Again(event, script) => EmittedReaches(r, t, event, script);
  }

  // ---------- the sink ----------

  /** What emit `e` handed to the sink. */
  function SinkOf(sink: seq<Entry>, e: nat): seq<Entry> {
    if sink == [] then []
    else
      var n := |sink| - 1;
      SinkOf(sink[..n], e) + if sink[n].emit == e then [sink[n]] else []
  }

  predicate Throws(script: Script, i: nat) {
    i < |script.reactions| && script.reactions[i].threw
  }

  /** The listeners from number `i` on that throw, in order. */
  function Thrown(script: Script, w: Walk, i: nat): seq<Entry>
    decreases |w.remaining|
  {
    if w.remaining == [] then []
    else (if Throws(script, i) then [Entry(w.emit, w.event, w.remaining[0])] else [])
         + Thrown(script, w.(remaining := w.remaining[1..]), i + 1)
  }

  /** `t` follows `r`: same walks below the top one, no emit forgotten. */
  predicate Follows(r: Registry, t: Registry, top: Walk) {
    r.stack != [] && t.stack == r.stack[..|r.stack| - 1] + [top] && |r.snapshots| <= |t.snapshots|
  }

  lemma {:induction false} ReturnSinks(r: Registry, threw: bool, e: nat)
    requires r.stack != [] && Top(r).running.Some?
    ensures var t := Step(r, Return(threw));
            && Follows(r, t, Top(r).(running := None))
            && SinkOf(t.sink, e)
               == SinkOf(r.sink, e) + if threw && Top(r).emit == e then [Entry(e, Top(r).event, Top(r).running.value)] else []
  {
    var t := Step(r, Return(threw));
    if threw {
      assert t.sink[..|t.sink| - 1] == r.sink;
    }
  }

  lemma {:induction false} NextSinks(r: Registry)
    requires r.stack != [] && Top(r).running.None? && Top(r).remaining != []
    ensures var t, w := Step(r, Next), Top(r);
            Follows(r, t, w.(remaining := w.remaining[1..], running := Some(w.remaining[0]))) && t.sink == r.sink
  {
  }

  lemma {:induction false} ReactedSinks(r: Registry, reaction: Reaction, e: nat)
    requires r.stack != [] && Top(r).running.Some? && e < |r.snapshots|
    ensures var t := Reacted(r, reaction);
            && Follows(r, t, Top(r).(running := None))
            && SinkOf(t.sink, e)
               == SinkOf(r.sink, e) + if reaction.threw && Top(r).emit == e then [Entry(e, Top(r).event, Top(r).running.value)] else []
    decreases reaction, 1, 0
  {
    ActedSinks(r, reaction, |reaction.acts|, e);
    ReturnSinks(Acted(r, reaction, |reaction.acts|), reaction.threw, e);
  }

  /** Nothing that the walk `r` is in, or emit `e`, can tell. */
  ghost predicate Unnoticed(r: Registry, t: Registry, e: nat) {
    t.stack == r.stack && |r.snapshots| <= |t.snapshots| && SinkOf(t.sink, e) == SinkOf(r.sink, e)
  }

  lemma {:induction false} ActedSinks(r: Registry, reaction: Reaction, k: nat, e: nat)
    requires r.stack != [] && Top(r).running.Some? && e < |r.snapshots| && k <= |reaction.acts|
    ensures Unnoticed(r, Acted(r, reaction, k), e)
    decreases reaction, 0, k
  {
    if k > 0 {
      ActedSinks(r, reaction, k - 1, e);
      PerformedSinks(Acted(r, reaction, k - 1), reaction.acts[k - 1], e);
    }
  }

  lemma {:induction false} ChangeSinks(r: Registry, change: Event, e: nat)
    requires IsChange(change)
    ensures Unnoticed(r, Step(r, change), e)
  {
  }

  lemma {:induction false} PerformedSinks(r: Registry, act: Act, e: nat)
    requires Outside(r) && e < |r.snapshots|
    ensures Unnoticed(r, Performed(r, act), e)
    decreases act, 3, 0
  {
    match act
    case Change(change) => if IsChange(change) { ChangeSinks(r, change, e); }
    case Again(event, script) => EmittedSinks(r, event, script, e);
  }

  lemma {:induction false} TurnSinks(r: Registry, script: Script, i: nat, e: nat)
    requires r.stack != [] && Top(r).running.None? && Top(r).remaining != [] && e < |r.snapshots|
    ensures var t, w := Turn(r, script, i), Top(r);
            && Follows(r, t, w.(remaining := w.remaining[1..]))
            && SinkOf(t.sink, e)
               == SinkOf(r.sink, e) + if Throws(script, i) && w.emit == e then [Entry(e, w.event, w.remaining[0])] else []
    decreases script, 0, 0
  {
    NextSinks(r);
    if i < |script.reactions| {
      ReactedSinks(Step(r, Next), script.reactions[i], e);
    } else {
      ReturnSinks(Step(r, Next), false, e);
    }
  }

  lemma {:induction false} FollowsOn(r: Registry, u: Registry, t: Registry, top: Walk, last: Walk)
    requires Follows(r, u, top) && Follows(u, t, last)
    ensures Follows(r, t, last) && Top(u) == top
  {
  }

  lemma {:induction false} ThrownFirst(script: Script, w: Walk, i: nat)
    requires w.remaining != []
    ensures Thrown(script, w, i)
         == (if Throws(script, i) then [Entry(w.emit, w.event, w.remaining[0])] else [])
            + Thrown(script, w.(remaining := w.remaining[1..]), i + 1)
  {
  }

  /** What the walk has handed over by its end, as far as emit `e` goes. */
  ghost predicate Walks(r: Registry, t: Registry, w: Walk, script: Script, i: nat, e: nat) {
    && Follows(r, t, w.(remaining := []))
    && SinkOf(t.sink, e) == SinkOf(r.sink, e) + if w.emit == e then Thrown(script, w, i) else []
  }

  lemma {:induction false} WalkedSinks(r: Registry, script: Script, i: nat, n: nat, e: nat)
    requires r.stack != [] && Top(r).running.None? && i + |Top(r).remaining| == n && e < |r.snapshots|
    ensures Walks(r, Walked(r, script, i, n), Top(r), script, i, e)
    decreases script, 1, n - i
  {
    var w := Top(r);
    if i < n {
      var u := Turn(r, script, i);
      TurnSinks(r, script, i, e);
      WalkedSinks(u, script, i + 1, n, e);
      WalkGoesOn(r, u, Walked(u, script, i + 1, n), script, i, e);
    } else {
      assert w.(remaining := []) == w && r.stack == r.stack[..|r.stack| - 1] + [w];
    }
  }

  lemma {:induction false} WalkGoesOn(r: Registry, u: Registry, t: Registry, script: Script, i: nat, e: nat)
    requires r.stack != [] && Top(r).remaining != []
    requires Follows(r, u, Top(r).(remaining := Top(r).remaining[1..]))
    requires SinkOf(u.sink, e)
          == SinkOf(r.sink, e) + if Throws(script, i) && Top(r).emit == e then [Entry(e, Top(r).event, Top(r).remaining[0])] else []
    requires Walks(u, t, Top(u), script, i + 1, e)
    ensures Walks(r, t, Top(r), script, i, e)
  {
    var w := Top(r);
    FollowsOn(r, u, t, w.(remaining := w.remaining[1..]), Top(u).(remaining := []));
    ThrownFirst(script, w, i);
  }

  lemma {:induction false} BeginSinks(r: Registry, event: SocketEvent)
    requires Outside(r)
    ensures var b := Step(r, BeginEmit(event));
            && b.stack == r.stack + [Walk(|r.snapshots|, event, r.listeners, None)]
            && |b.snapshots| == |r.snapshots| + 1 && b.sink == r.sink
  {
  }

  lemma {:induction false} EndSinks(r: Registry, b: Registry, t: Registry, w: Walk)
    requires b.stack == r.stack + [w] && Follows(b, t, w.(remaining := [])) && w.running.None?
    ensures Step(t, EndEmit) == t.(stack := r.stack)
  {
    assert b.stack[..|b.stack| - 1] == r.stack;
    assert Top(t) == w.(remaining := []);
  }

  lemma {:induction false} EmittedSinks(r: Registry, event: SocketEvent, script: Script, e: nat)
    requires Outside(r) && e <= |r.snapshots|
    ensures var t, w := Emitted(r, event, script), Walk(|r.snapshots|, event, r.listeners, None);
            && t.stack == r.stack && |r.snapshots| <= |t.snapshots|
            && SinkOf(t.sink, e) == SinkOf(r.sink, e) + if e == |r.snapshots| then Thrown(script, w, 0) else []
    decreases script, 2, 0
  {
    var b, w := Step(r, BeginEmit(event)), Walk(|r.snapshots|, event, r.listeners, None);
    BeginSinks(r, event);
    assert Top(b) == w;
    WalkedSinks(b, script, 0, |r.listeners|, e);
    var t := Walked(b, script, 0, |r.listeners|);
    assert Walks(b, t, w, script, 0, e);
    EndSinks(r, b, t, w);
    EmittedEnds(r, event, script, t);
  }

  lemma {:induction false} EmittedEnds(r: Registry, event: SocketEvent, script: Script, t: Registry)
    requires t == Walked(Step(r, BeginEmit(event)), script, 0, |r.listeners|)
    ensures Emitted(r, event, script) == Step(t, EndEmit)
  {
  }

  lemma {:induction false} NothingSunk(sink: seq<Entry>, e: nat)
    requires forall k :: 0 <= k < |sink| ==> sink[k].emit < e
    ensures SinkOf(sink, e) == []
  {
    if sink != [] {
      NothingSunk(sink[..|sink| - 1], e);
    }
  }

  /**
   Each throw reaches the sink once. Whatever the listeners do, an emit hands the
   sink exactly its listeners that throw, in order; emits nested in it hand over
   their own.
   */
  lemma {:induction false} EmitSinksThrows(r: Registry, event: SocketEvent, script: Script)
    requires Outside(r) && forall k :: 0 <= k < |r.sink| ==> r.sink[k].emit < |r.snapshots|
    ensures SinkOf(Emitted(r, event, script).sink, |r.snapshots|)
         == Thrown(script, Walk(|r.snapshots|, event, r.listeners, None), 0)
  {
    NothingSunk(r.sink, |r.snapshots|);
    EmittedSinks(r, event, script, |r.snapshots|);
  }

  class ListenerRegistry {
    var listeners: seq<Registration>
    var registrations: nat       // names the next registration
    ghost var model: Registry

    ghost predicate Valid()
      reads this
    {
      model.listeners == listeners && model.registrations == registrations
    }

    constructor ()
      ensures Valid() && model == NEW_REGISTRY
    {
      listeners, registrations, model := [], 0, NEW_REGISTRY;
    }

    method Add(listener: nat, once: bool)
      requires Valid() && Outside(model)
      modifies this
      ensures Valid() && model == Step(old(model), Event.Add(listener, once))
    {
      model := Step(model, Event.Add(listener, once));
      if !Has(listeners, listener) {
        listeners, registrations := listeners + [Registration(registrations, listener, once)], registrations + 1;
      }
    }

    method Remove(listener: nat)
      requires Valid() && Outside(model)
      modifies this
      ensures Valid() && model == Step(old(model), Event.Remove(listener))
      ensures forall x :: x in listeners <==> x in old(listeners) && x.listener != listener
    {
      WithoutKeeps(listeners, listener);
      listeners, model := Without(listeners, listener), Step(model, Event.Remove(listener));
    }

    method Clear()
      requires Valid() && Outside(model)
      modifies this
      ensures Valid() && model == Step(old(model), Event.Clear)
    {
      listeners, model := [], Step(model, Event.Clear);
    }

    method Apply(e: Event)
      requires Valid() && Outside(model) && IsChange(e)
      modifies this
      ensures Valid() && model == Step(old(model), e)
    {
      if e.Add? {
        Add(e.listener, e.once);
      } else if e.Remove? {
        Remove(e.listener);
      } else {
        Clear();
      }
    }

    /** A listener's body; it may emit on this very registry, to any depth. */
    method RunListener(reaction: Reaction)
      requires Valid() && model.stack != [] && Top(model).running.Some?
      modifies this
      ensures Valid() && model == Reacted(old(model), reaction)
      ensures model.stack == old(model).stack[..|old(model).stack| - 1] + [old(Top(model)).(running := None)]
      ensures model.handed == old(model).handed
      decreases reaction, 1
    {
      for k := 0 to |reaction.acts|
        invariant Valid() && model == Acted(old(model), reaction, k)
        invariant model.stack == old(model).stack && model.handed == old(model).handed
      {
        var act := reaction.acts[k];
        match act {
          case Change(e) => if IsChange(e) { Apply(e); }
          case Again(event, script) => Emit(event, script);
        }
      }
      model := Step(model, Return(reaction.threw));
    }

    /** One turn of the loop in `emit`. */
    method Invoke(entry: Registration, script: Script, i: nat)
      requires Valid() && model.stack != [] && Top(model).running.None?
      requires Top(model).remaining != [] && Top(model).remaining[0] == entry
      modifies this
      ensures Valid() && model == Turn(old(model), script, i)
      ensures model.stack == old(model).stack[..|old(model).stack| - 1] + [old(Top(model)).(remaining := old(Top(model)).remaining[1..])]
      ensures model.handed == old(model).handed
      decreases script, 0
    {
      if entry.once {
        listeners := Without(listeners, entry.listener);
      }
      model := Step(model, Next);
      if i < |script.reactions| {
        RunListener(script.reactions[i]);
      } else {
        model := Step(model, Return(false));
      }
    }

    /** The loop in `emit` over its snapshot. */
    method WalkSnapshot(snapshot: seq<Registration>, script: Script)
      requires Valid() && model.stack != [] && Top(model).remaining == snapshot && Top(model).running.None?
      modifies this
      ensures Valid() && model == Walked(old(model), script, 0, |snapshot|)
      ensures model.stack == old(model).stack[..|old(model).stack| - 1] + [old(Top(model)).(remaining := [])]
      ensures model.handed == old(model).handed
      decreases script, 1
    {
      ghost var before := model;
      for i := 0 to |snapshot|
        invariant Valid() && Walked(model, script, i, |snapshot|) == Walked(before, script, 0, |snapshot|)
        invariant model.stack == before.stack[..|before.stack| - 1] + [Top(before).(remaining := snapshot[i..])]
        invariant model.handed == before.handed
      {
        Invoke(snapshot[i], script, i);
      }
    }

    /**
     Walks a snapshot, so nothing a listener does disturbs the walk, and hands
     every throw to the sink. `EmitWalksItsSnapshot` says what that means.
     */
    method Emit(event: SocketEvent, script: Script)
      requires Valid() && Outside(model)
      modifies this
      ensures Valid() && model == Emitted(old(model), event, script)
      ensures model.stack == old(model).stack
      ensures model.handed == old(model).handed + if old(model).stack == [] then [event] else []
      decreases script, 2
    {
      ghost var before := model;
      BeginSinks(model, event);
      model := Step(model, BeginEmit(event));
      ghost var begun := model;
      WalkSnapshot(listeners, script);
      assert begun.stack[..|begun.stack| - 1] == before.stack;
      model := Step(model, EndEmit);
    }
  }
}
