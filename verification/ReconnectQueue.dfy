/**
 The waiter bookkeeping of `ReconnectManager`: debounce timer, the one pass in
 flight, the trailing rerun, and the promise of every `reconnect()` call.

 A waiter is the number of the `reconnect()` call that created it.
 */
module ReconnectQueue {

  /** Where the single `runReconnect` pass stands; each state but `Idle` holds the mutex. */
  datatype Pass =
    | Idle
    | Jittering(waiters: seq<nat>)                 // jitter timer armed
    | Jittered(waiters: seq<nat>)                  // delay resolved, continuation queued
    | Refreshing(waiters: seq<nat>, flight: nat)   // awaiting that provider refresh

  datatype Queue = Queue(
    disposed: bool,
    armed: bool,               // reconnectDebounceTimer
    pending: seq<nat>,         // pendingReconnectResolvers
    pass: Pass,
    rerun: bool,               // trailingRerunRequested
    trailing: seq<nat>,        // trailingRerunResolvers
    // History, read by no operation:
    calledAt: seq<nat>,        // passes begun when call i was made
    passes: nat,               // passes begun so far
    settled: multiset<nat>,    // every promise resolution
    servedBy: map<nat, nat>,   // resolutions by the end of pass number n
    refused: set<nat>)         // resolutions without any pass

  const EMPTY := Queue(false, false, [], Idle, false, [], [], 0, multiset{}, map[], {})

  function Waiters(p: Pass): seq<nat> {
    if p.Idle? then [] else p.waiters
  }

  function Elements(ids: seq<nat>): set<nat> {
    set i | i in ids
  }

  function Refuse(q: Queue, ids: seq<nat>): Queue {
    q.(settled := q.settled + multiset(ids), refused := q.refused + Elements(ids))
  }

  function Serve(q: Queue, ids: seq<nat>): Queue {
    q.(settled := q.settled + multiset(ids), servedBy := q.servedBy + map i | i in ids :: q.passes)
  }

  /** `reconnect()`: supersede the debounce window, or resolve at once on a stopped client. */
  function Enqueue(q: Queue, stopped: bool): Queue {
    var id: nat := |q.calledAt|;
    var q' := q.(calledAt := q.calledAt + [q.passes]);
    if stopped then Refuse(q', [id])
    else q'.(armed := true, pending := q.pending + [id])
  }

  /** `runReconnect` up to its first await. */
  function Start(q: Queue, ids: seq<nat>, stopped: bool): Queue {
    if stopped then Refuse(q, ids)
    else if !q.pass.Idle? then q.(rerun := true, trailing := q.trailing + ids)
    else q.(pass := Jittering(ids), passes := q.passes + 1)
  }

  function DebounceFires(q: Queue, stopped: bool): Queue {
    if !q.armed then q
    else Start(q.(armed := false, pending := []), q.pending, stopped)
  }

  function JitterElapses(q: Queue): Queue {
    if q.pass.Jittering? then q.(pass := Jittered(q.pass.waiters)) else q
  }

  function AwaitFlight(q: Queue, flight: nat): Queue {
    q.(pass := Refreshing(Waiters(q.pass), flight))
  }

  /** The `finally` block of `runReconnect`. */
  function Finish(q: Queue, stopped: bool): Queue {
    var q' := Serve(q.(pass := Idle), Waiters(q.pass));
    if q'.rerun then Start(q'.(rerun := false, trailing := []), q'.trailing, stopped) else q'
  }

  /** `ReconnectManager.dispose()`. */
  function DisposeQueue(q: Queue): (r: Queue)
    ensures r.disposed
    ensures q.disposed ==> r == q
  {
    if q.disposed then q
    else
      Refuse(JitterElapses(q), q.pending + q.trailing)
        .(disposed := true, armed := false, pending := [], rerun := false, trailing := [])
  }

  // ---------- what every operation keeps ----------

  /** How often waiter `i` occurs in pending, the pass, trailing and settled together. */
  ghost function Places(q: Queue, i: nat): nat {
    multiset(q.pending)[i] + multiset(Waiters(q.pass))[i] + multiset(q.trailing)[i] + q.settled[i]
  }

  /** Every waiter ever created is in exactly one of the four places, once; nothing else is. */
  ghost predicate Conserved(q: Queue) {
    forall i: nat :: Places(q, i) == if i < |q.calledAt| then 1 else 0
  }

  /** The debounce timer, the rerun request and the mutex agree with who is waiting. */
  ghost predicate TimersAgree(q: Queue) {
    && (q.armed <==> q.pending != [])
    && (q.rerun <==> q.trailing != [])
    && (q.rerun ==> !q.pass.Idle?)
  }

  /** A pass serves only calls made before it began. */
  ghost predicate FreshPasses(q: Queue) {
    && (forall i :: 0 <= i < |q.calledAt| ==> q.calledAt[i] <= q.passes)
    && (forall i :: i in Waiters(q.pass) ==> i < |q.calledAt| && q.calledAt[i] < q.passes)
    && (forall i :: i in q.servedBy ==> i < |q.calledAt| && q.calledAt[i] < q.servedBy[i] <= q.passes)
  }

  /** Each resolution has a cause. */
  ghost predicate Accounted(q: Queue) {
    forall i :: i in q.settled <==> i in q.servedBy || i in q.refused
  }

  ghost predicate QueueOk(q: Queue) {
    Conserved(q) && TimersAgree(q) && FreshPasses(q) && Accounted(q)
  }

  lemma WaiterBounded(q: Queue, i: nat)
    requires Conserved(q)
    requires i in q.pending || i in Waiters(q.pass) || i in q.trailing || i in q.settled
    ensures i < |q.calledAt|
  {
    assert Places(q, i) > 0;
  }

  /** `r` holds what `q` held and `ids` besides. */
  ghost predicate Adds(q: Queue, ids: seq<nat>, r: Queue) {
    forall i: nat :: Places(r, i) == Places(q, i) + multiset(ids)[i]
  }

  lemma RefuseAdds(q: Queue, ids: seq<nat>)
    ensures Adds(q, ids, Refuse(q, ids))
    ensures FreshPasses(q) && Accounted(q) ==> FreshPasses(Refuse(q, ids)) && Accounted(Refuse(q, ids))
  {
  }

  lemma EnqueueConserves(q: Queue, stopped: bool)
    requires Conserved(q)
    ensures Conserved(Enqueue(q, stopped))
  {
    var id: nat := |q.calledAt|;
    var q' := q.(calledAt := q.calledAt + [q.passes]);
    var r := Enqueue(q, stopped);
    RefuseAdds(q', [id]);
    assert multiset(q.pending + [id]) == multiset(q.pending) + multiset([id]);
    forall i: nat
      ensures Places(r, i) == if i < |r.calledAt| then 1 else 0
    {
      assert Places(q', i) == Places(q, i);
      assert Places(r, i) == Places(q', i) + multiset([id])[i];
    }
  }

  lemma EnqueueKeeps(q: Queue, stopped: bool)
    requires QueueOk(q)
    ensures QueueOk(Enqueue(q, stopped))
  {
    EnqueueConserves(q, stopped);
    var q' := q.(calledAt := q.calledAt + [q.passes]);
    assert FreshPasses(q') && Accounted(q');
    if stopped {
      RefuseAdds(q', [|q.calledAt|]);
    }
  }

  lemma StartAdds(q: Queue, ids: seq<nat>, stopped: bool)
    ensures Adds(q, ids, Start(q, ids, stopped))
  {
    RefuseAdds(q, ids);
    assert multiset(q.trailing + ids) == multiset(q.trailing) + multiset(ids);
  }

  /** Starting a pass for `ids`, which the caller has just taken out of `whole`. */
  lemma StartConserves(whole: Queue, q: Queue, ids: seq<nat>, stopped: bool)
    requires Conserved(whole) && Adds(q, ids, whole) && whole.calledAt == q.calledAt
    ensures Conserved(Start(q, ids, stopped))
  {
    var r := Start(q, ids, stopped);
    StartAdds(q, ids, stopped);
    forall i: nat
      ensures Places(r, i) == if i < |r.calledAt| then 1 else 0
    {
      assert Places(r, i) == Places(whole, i);
    }
  }

  lemma StartKeeps(whole: Queue, q: Queue, ids: seq<nat>, stopped: bool)
    requires Conserved(whole) && Adds(q, ids, whole) && whole.calledAt == q.calledAt
    requires TimersAgree(q) && FreshPasses(q) && Accounted(q) && ids != []
    ensures QueueOk(Start(q, ids, stopped))
  {
    StartConserves(whole, q, ids, stopped);
    RefuseAdds(q, ids);
    var r := Start(q, ids, stopped);
    forall i | i in Waiters(r.pass)
      ensures i < |r.calledAt| && r.calledAt[i] < r.passes
    {
      WaiterBounded(r, i);
    }
  }

  lemma DebounceKeeps(q: Queue, stopped: bool)
    requires QueueOk(q)
    ensures QueueOk(DebounceFires(q, stopped))
  {
    if q.armed {
      StartKeeps(q, q.(armed := false, pending := []), q.pending, stopped);
    }
  }

  lemma FinishKeeps(q: Queue, stopped: bool)
    requires QueueOk(q) && !q.pass.Idle?
    ensures QueueOk(Finish(q, stopped))
  {
    var q' := Serve(q.(pass := Idle), Waiters(q.pass));
    assert Adds(q', [], q);
    assert FreshPasses(q') && Accounted(q');
    if q.rerun {
      StartKeeps(q, q'.(rerun := false, trailing := []), q'.trailing, stopped);
    } else {
      forall i: nat
        ensures Places(q', i) == if i < |q'.calledAt| then 1 else 0
      {
        assert Places(q', i) == Places(q, i);
      }
    }
  }

  lemma AwaitKeeps(q: Queue, flight: nat)
    requires QueueOk(q) && !q.pass.Idle?
    ensures QueueOk(AwaitFlight(q, flight))
  {
    assert forall i: nat :: Places(AwaitFlight(q, flight), i) == Places(q, i);
  }

  lemma JitterKeeps(q: Queue)
    requires QueueOk(q)
    ensures QueueOk(JitterElapses(q))
  {
    assert forall i: nat :: Places(JitterElapses(q), i) == Places(q, i);
  }

  lemma DisposalKeeps(q: Queue)
    requires QueueOk(q)
    ensures QueueOk(DisposeQueue(q))
  {
    if !q.disposed {
      var ids: seq<nat> := q.pending + q.trailing;
      var q' := JitterElapses(q).(disposed := true, armed := false, pending := [], rerun := false, trailing := []);
      var r := DisposeQueue(q);
      assert r == Refuse(q', ids);
      RefuseAdds(q', ids);
      assert Waiters(q'.pass) == Waiters(q.pass);
      forall i: nat
        ensures Places(r, i) == if i < |r.calledAt| then 1 else 0
      {
        assert multiset(ids)[i] == multiset(q.pending)[i] + multiset(q.trailing)[i];
        assert Places(r, i) == Places(q, i);
      }
    }
  }

  // ---------- the fields of ReconnectManager that hold waiters and timers ----------

  /** The mutable form; every method is tied to the function of the same meaning above. */
  class WaiterQueue {
    var disposed: bool
    var debounceArmed: bool
    var pendingReconnectResolvers: seq<nat>
    var pass: Pass
    var trailingRerunRequested: bool
    var trailingRerunResolvers: seq<nat>
    var calledAt: seq<nat>
    var passes: nat
    ghost var settled: multiset<nat>
    ghost var servedBy: map<nat, nat>
    ghost var refused: set<nat>

    ghost function Value(): Queue
      reads this
    {
      Queue(disposed, debounceArmed, pendingReconnectResolvers, pass, trailingRerunRequested,
            trailingRerunResolvers, calledAt, passes, settled, servedBy, refused)
    }

    constructor ()
      ensures Value() == EMPTY
    {
      disposed, debounceArmed, trailingRerunRequested := false, false, false;
      pendingReconnectResolvers, trailingRerunResolvers, pass := [], [], Idle;
      calledAt, passes, settled, servedBy, refused := [], 0, multiset{}, map[], {};
    }

    /** Resolves every promise of `ids`; `by` is the pass that served them, if one did. */
    method SettleAll(ids: seq<nat>, ghost served: bool)
      modifies this`settled, this`servedBy, this`refused
      ensures Value() == if served then Serve(old(Value()), ids) else Refuse(old(Value()), ids)
    {
      for i := 0 to |ids|
        invariant settled == old(settled) + multiset(ids[..i])
        invariant servedBy == old(servedBy) && refused == old(refused)
      {
        settled := settled + multiset{ids[i]};
        assert ids[..i + 1] == ids[..i] + [ids[i]];
      }
      assert ids[..|ids|] == ids;
      if served {
        servedBy := servedBy + map i | i in ids :: passes;
      } else {
        refused := refused + Elements(ids);
      }
    }

    /** `reconnect()`: a waiter is named by the number of the call. */
    method Reconnect(stopped: bool)
      modifies this
      ensures Value() == Enqueue(old(Value()), stopped)
    {
      var id: nat := |calledAt|;
      calledAt := calledAt + [passes];
      if stopped {
        SettleAll([id], false);
        return;
      }
      debounceArmed := true;
      pendingReconnectResolvers := pendingReconnectResolvers + [id];
    }

    /** `runReconnect` up to its first await. */
    method RunReconnect(resolvers: seq<nat>, stopped: bool)
      modifies this
      ensures Value() == Start(old(Value()), resolvers, stopped)
    {
      if stopped {
        SettleAll(resolvers, false);
        return;
      }
      if !pass.Idle? {
        trailingRerunRequested := true;
        trailingRerunResolvers := trailingRerunResolvers + resolvers;
        return;
      }
      pass := Jittering(resolvers);
      passes := passes + 1;
    }

    method DebounceTimer(stopped: bool)
      modifies this
      ensures Value() == DebounceFires(old(Value()), stopped)
    {
      if debounceArmed {
        debounceArmed := false;
        var resolvers := pendingReconnectResolvers;
        pendingReconnectResolvers := [];
        RunReconnect(resolvers, stopped);
      }
    }

    method JitterTimer()
      modifies this
      ensures Value() == JitterElapses(old(Value()))
    {
      if pass.Jittering? {
        pass := Jittered(pass.waiters);
      }
    }

    method Await(flight: nat)
      modifies this
      ensures Value() == AwaitFlight(old(Value()), flight)
    {
      pass := Refreshing(Waiters(pass), flight);
    }

    /** The `finally` block of `runReconnect`. */
    method FinishPass(stopped: bool)
      modifies this
      ensures Value() == Finish(old(Value()), stopped)
    {
      var resolvers := Waiters(pass);
      pass := Idle;
      SettleAll(resolvers, true);
      if trailingRerunRequested {
        trailingRerunRequested := false;
        var trailing := trailingRerunResolvers;
        trailingRerunResolvers := [];
        RunReconnect(trailing, stopped);
      }
    }

    method Dispose()
      modifies this
      ensures Value() == DisposeQueue(old(Value()))
    {
      if disposed { return; }
      disposed, debounceArmed := true, false;
      JitterTimer();
      var resolvers := pendingReconnectResolvers;
      pendingReconnectResolvers := [];
      ghost var q := Value().(rerun := false, trailing := []);
      SettleAll(resolvers, false);
      trailingRerunRequested := false;
      var trailing := trailingRerunResolvers;
      trailingRerunResolvers := [];
      assert Value() == Refuse(q, resolvers);
      SettleAll(trailing, false);
      RefusedTogether(q, resolvers, trailing);
    }
  }

  lemma RefusedTogether(q: Queue, a: seq<nat>, b: seq<nat>)
    ensures Refuse(Refuse(q, a), b) == Refuse(q, a + b)
  {
    assert multiset(a + b) == multiset(a) + multiset(b);
    assert q.settled + multiset(a) + multiset(b) == q.settled + multiset(a + b);
    assert Elements(a) + Elements(b) == Elements(a + b);
  }
}
