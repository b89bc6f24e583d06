/**
 Who is registered, and so whom an emit will run, in terms of the additions and
 removals of the run.
 */
module ListenerRegistrations {
  import opened ListenerRegistries

  /** Code outside the dispatch loop runs: a listener, or whoever holds the registry. */
  predicate Free(r: Registry) {
    r.stack == [] || r.stack[|r.stack| - 1].running.Some?
  }

  /** The loop is about to run `x` itself, or another registration of its listener that is still in a snapshot. */
  predicate RunsOnce(r: Registry, listener: nat) {
    && r.stack != []
    && var top := r.stack[|r.stack| - 1];
       top.running.None? && top.remaining != [] && top.remaining[0].once && top.remaining[0].listener == listener
  }

  /** Event `e` registers `x`: its listener is added, and is not registered yet. */
  predicate Adds(r: Registry, e: Event, x: Registration) {
    && e.Add? && Free(r)
    && x == Registration(r.registrations, e.listener, e.once)
    && forall i :: 0 <= i < |r.listeners| ==> r.listeners[i].listener != e.listener
  }

  /** Event `e` ends every registration of the listener of `x`. */
  predicate Ends(r: Registry, e: Event, x: Registration) {
    match e
    case Remove(l) => Free(r) && l == x.listener
    case Clear => Free(r)
    case Next => RunsOnce(r, x.listener)
    case _ => false
  }

  /** Additions number the registrations in their order. */
  ghost predicate InOrder(r: Registry) {
    && (forall i, j :: 0 <= i < j < |r.listeners| ==> r.listeners[i].id < r.listeners[j].id)
    && (forall i :: 0 <= i < |r.listeners| ==> r.listeners[i].id < r.registrations)
  }

  lemma {:induction false} WithoutInOrder(listeners: seq<Registration>, listener: nat)
    requires forall i, j :: 0 <= i < j < |listeners| ==> listeners[i].id < listeners[j].id
    ensures var rest := Without(listeners, listener);
            && (forall x :: x in rest <==> x in listeners && x.listener != listener)
            && (forall i, j :: 0 <= i < j < |rest| ==> rest[i].id < rest[j].id)
  {
    if listeners != [] {
      WithoutInOrder(listeners[1..], listener);
      var rest := Without(listeners[1..], listener);
      forall i | 0 <= i < |rest| ensures listeners[0].id < rest[i].id {
        assert rest[i] in rest && rest[i] in listeners[1..];
      }
    }
  }

  /** What one event does to who is registered. */
  predicate Registers(r: Registry, e: Event, x: Registration, t: Registry) {
    && (x in t.listeners <==> Adds(r, e, x) || (x in r.listeners && !Ends(r, e, x)))
    && (Adds(r, e, x) ==> x.id < t.registrations)
  }

  lemma AddRegisters(r: Registry, l: nat, once: bool, x: Registration)
    requires InOrder(r)
    ensures var t := Step(r, Add(l, once));
            InOrder(t) && r.registrations <= t.registrations && Registers(r, Add(l, once), x, t)
  {
  }

  lemma RemoveRegisters(r: Registry, l: nat, x: Registration)
    requires InOrder(r)
    ensures var t := Step(r, Remove(l));
            InOrder(t) && r.registrations == t.registrations && Registers(r, Remove(l), x, t)
  {
    WithoutInOrder(r.listeners, l);
  }

  lemma NextRegisters(r: Registry, x: Registration)
    requires InOrder(r)
    ensures var t := Step(r, Next);
            InOrder(t) && r.registrations == t.registrations && Registers(r, Next, x, t)
  {
    if r.stack != [] && Top(r).remaining != [] {
      WithoutInOrder(r.listeners, Top(r).remaining[0].listener);
    }
  }

  lemma StepRegisters(r: Registry, e: Event, x: Registration)
    requires InOrder(r)
    ensures InOrder(Step(r, e)) && r.registrations <= Step(r, e).registrations
    ensures x in Step(r, e).listeners <==> Adds(r, e, x) || (x in r.listeners && !Ends(r, e, x))
    ensures Adds(r, e, x) ==> x.id < Step(r, e).registrations
  {
    hide Begin, RunNext;
    match e
    case Add(l, once) => AddRegisters(r, l, once, x);
    case Remove(l) => RemoveRegisters(r, l, x);
    case Next => NextRegisters(r, x);
    case BeginEmit(_) => OthersRegister(r, e);
    case Return(_) => OthersRegister(r, e);
    case EndEmit => OthersRegister(r, e);
    case Clear =>
  }

  lemma OthersRegister(r: Registry, e: Event)
    requires e.BeginEmit? || e.Return? || e.EndEmit?
    ensures Step(r, e).listeners == r.listeners && Step(r, e).registrations == r.registrations
  {
  }

  predicate AddedAt(events: seq<Event>, k: nat, x: Registration)
    requires k < |events|
  {
    Adds(Run(events[..k]), events[k], x)
  }

  predicate EndedAt(events: seq<Event>, k: nat, x: Registration)
    requires k < |events|
  {
    Ends(Run(events[..k]), events[k], x)
  }

  /** Nothing has ended the registration since turn `k`. */
  ghost predicate StandsSince(events: seq<Event>, k: nat, x: Registration) {
    forall m :: k < m < |events| ==> !EndedAt(events, m, x)
  }

  /** `x` was registered in some turn, and nothing has ended that since. */
  ghost predicate InForce(events: seq<Event>, x: Registration) {
    exists k :: 0 <= k < |events| && AddedAt(events, k, x) && StandsSince(events, k, x)
  }

  lemma SameTurns(events: seq<Event>, e: Event, k: nat, x: Registration)
    requires k < |events|
    ensures AddedAt(events + [e], k, x) <==> AddedAt(events, k, x)
    ensures EndedAt(events + [e], k, x) <==> EndedAt(events, k, x)
  {
    assert (events + [e])[..k] == events[..k];
  }

  lemma StandsSnoc(events: seq<Event>, e: Event, k: nat, x: Registration)
    requires k < |events|
    ensures StandsSince(events + [e], k, x) <==> StandsSince(events, k, x) && !Ends(Run(events), e, x)
  {
    hide Run, Ends, Adds;
    var all := events + [e];
    assert all[..|events|] == events && all[|events|] == e;
    assert EndedAt(all, |events|, x) <==> Ends(Run(events), e, x);
    forall m | k < m < |events| ensures EndedAt(all, m, x) <==> EndedAt(events, m, x) {
      SameTurns(events, e, m, x);
    }
  }

  lemma InForceSnoc(events: seq<Event>, e: Event, x: Registration)
    ensures InForce(events + [e], x) <==> Adds(Run(events), e, x) || (InForce(events, x) && !Ends(Run(events), e, x))
  {
    hide Run, Ends, StandsSince;
    var all := events + [e];
    assert all[..|events|] == events && all[|events|] == e;
    assert AddedAt(all, |events|, x) <==> Adds(Run(events), e, x);
    LastStands(all, x);
    if InForce(events, x) {
      var k :| 0 <= k < |events| && AddedAt(events, k, x) && StandsSince(events, k, x);
      SameTurns(events, e, k, x);
      StandsSnoc(events, e, k, x);
    }
    if InForce(all, x) {
      var k :| 0 <= k < |all| && AddedAt(all, k, x) && StandsSince(all, k, x);
      if k < |events| {
        SameTurns(events, e, k, x);
        StandsSnoc(events, e, k, x);
      }
    }
  }

  lemma LastStands(events: seq<Event>, x: Registration)
    requires events != []
    ensures StandsSince(events, |events| - 1, x)
  {
  }

  lemma {:induction false} RunInOrder(events: seq<Event>)
    ensures InOrder(Run(events))
  {
    if events != [] {
      RunInOrder(events[..|events| - 1]);
      StepRegisters(Run(events[..|events| - 1]), events[|events| - 1], Registration(0, 0, false));
    }
  }

  /**
   Who is registered: in every run exactly the listeners that were added when
   they were not registered, with no removal of them, no clearing, and no run of
   a `once` registration of them since; in the order of those additions.
   */
  lemma {:induction false} RegisteredIff(events: seq<Event>, x: Registration)
    ensures x in Run(events).listeners <==> InForce(events, x)
    ensures InOrder(Run(events))
  {
    hide Step, InForce, Adds, Ends, InOrder;
    RunInOrder(events);
    if events == [] {
      NobodyYet(x);
    } else {
      var n := |events| - 1;
      RegisteredIff(events[..n], x);
      StepRegisters(Run(events[..n]), events[n], x);
      assert events == events[..n] + [events[n]];
      InForceSnoc(events[..n], events[n], x);
    }
  }

  lemma NobodyYet(x: Registration)
    ensures !InForce([], x) && NEW_REGISTRY.listeners == []
  {
  }

  /** Of two additions the later one has the larger number. */
  lemma {:induction false} NumberedInOrder(events: seq<Event>, j: nat, k: nat, x: Registration, y: Registration)
    requires j < k < |events| && AddedAt(events, j, x) && AddedAt(events, k, y)
    ensures x.id < y.id
  {
    hide Step, Adds;
    AddedIsNumbered(events, j, x);
    Grows(events[..k], j + 1);
    assert events[..k][..j + 1] == events[..j + 1];
    NumberOfAddition(Run(events[..k]), events[k], y);
  }

  lemma NumberOfAddition(r: Registry, e: Event, y: Registration)
    requires Adds(r, e, y)
    ensures y.id == r.registrations
  {
  }

  lemma AddedIsNumbered(events: seq<Event>, j: nat, x: Registration)
    requires j < |events| && AddedAt(events, j, x)
    ensures x.id < Run(events[..j + 1]).registrations
  {
    hide Step, Adds;
    RunInOrder(events[..j]);
    StepRegisters(Run(events[..j]), events[j], x);
    assert events[..j + 1][..j] == events[..j];
  }

  lemma {:induction false} Grows(events: seq<Event>, k: nat)
    requires k <= |events|
    ensures Run(events[..k]).registrations <= Run(events).registrations
  {
    hide Step;
    if k < |events| {
      var init := events[..|events| - 1];
      assert init[..k] == events[..k];
      Grows(init, k);
      RunInOrder(init);
      StepRegisters(Run(init), events[|events| - 1], Registration(0, 0, false));
    } else {
      assert events[..k] == events;
    }
  }

  // ---------- snapshots ----------

  /** Emit number `e` began in turn `k`. */
  predicate BeganAt(events: seq<Event>, k: nat, e: nat)
    requires k < |events|
  {
    events[k].BeginEmit? && Free(Run(events[..k])) && |Run(events[..k]).snapshots| == e
  }

  lemma SnapshotStep(r: Registry, e: Event)
    ensures if e.BeginEmit? && Free(r) then Step(r, e).snapshots == r.snapshots + [r.listeners] else Step(r, e).snapshots == r.snapshots
  {
  }

  lemma {:induction false} SnapshotBegan(events: seq<Event>, e: nat)
    requires e < |Run(events).snapshots|
    ensures exists k :: 0 <= k < |events| && BeganAt(events, k, e) && Run(events).snapshots[e] == Run(events[..k]).listeners
  {
    hide Step;
    if events != [] {
      var n := |events| - 1;
      SnapshotStep(Run(events[..n]), events[n]);
      if e < |Run(events[..n]).snapshots| {
        SnapshotBegan(events[..n], e);
        var k :| 0 <= k < n && BeganAt(events[..n], k, e) && Run(events[..n]).snapshots[e] == Run(events[..n][..k]).listeners;
        assert events[..n][..k] == events[..k];
        assert BeganAt(events, k, e);
      } else {
        assert BeganAt(events, n, e);
      }
    }
  }

  /** A snapshot holds exactly the registrations in force when its emit began, in their order, each once. */
  ghost predicate Snapped(snapshot: seq<Registration>, before: seq<Event>) {
    && (forall x :: x in snapshot <==> InForce(before, x))
    && (forall i, j :: 0 <= i < j < |snapshot| ==> snapshot[i].id < snapshot[j].id)
  }

  /**
   Whom an emit runs: the snapshot of every emit of a run, which by
   `EmitWalksItsSnapshot` it runs in order, holds exactly the listeners in force
   at the moment the emit began.
   */
  lemma SnapshotsHoldWhoIsRegistered(events: seq<Event>, e: nat)
    requires e < |Run(events).snapshots|
    ensures exists k :: 0 <= k < |events| && BeganAt(events, k, e) && Snapped(Run(events).snapshots[e], events[..k])
  {
    hide Step, InForce;
    SnapshotBegan(events, e);
    var k :| 0 <= k < |events| && BeganAt(events, k, e) && Run(events).snapshots[e] == Run(events[..k]).listeners;
    forall x ensures x in Run(events[..k]).listeners <==> InForce(events[..k], x) {
      RegisteredIff(events[..k], x);
    }
    RunInOrder(events[..k]);
  }
}
