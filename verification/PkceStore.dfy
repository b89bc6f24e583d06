/**
 The pending-login store: an in-memory map from login state to code verifier,
 against its meaning, a single-use expiring map read off the history of calls.
 */
module PkceStores {
  import opened Wrappers

  datatype Entry = Entry(codeVerifier: string, expiresAt: int)

  /** A call and the clock at that moment. */
  datatype Call =
    | SetCall(now: int, state: string, codeVerifier: string, ttlSeconds: int)
    | TakeCall(now: int, state: string)

  /** The clock does not go back. */
  ghost predicate Ordered(calls: seq<Call>) {
    forall i, j :: 0 <= i < j < |calls| ==> calls[i].now <= calls[j].now
  }

  /** The latest `set` of `state` with no `take` of it since. */
  function Pending(calls: seq<Call>, state: string): Option<Entry> {
    if calls == [] then None
    else
      var last := calls[|calls| - 1];
      if last.state != state then Pending(calls[..|calls| - 1], state)
      else match last
        case SetCall(now, _, v, ttl) => Some(Entry(v, now + ttl * 1000))
        case TakeCall(_, _) => None
  }

  /** What `take(state)` at `now` must answer after `calls`. */
  function Answer(calls: seq<Call>, now: int, state: string): Option<string> {
    match Pending(calls, state)
    case None => None
    case Some(e) => if e.expiresAt <= now then None else Some(e.codeVerifier)
  }

  function Swept(pending: map<string, Entry>, now: int): map<string, Entry> {
    map state | state in pending && pending[state].expiresAt > now :: pending[state]
  }

  /** The map as the code keeps it. */
  function Stored(calls: seq<Call>): map<string, Entry> {
    if calls == [] then map[]
    else
      var before := Stored(calls[..|calls| - 1]);
      match calls[|calls| - 1]
      case SetCall(now, state, v, ttl) => Swept(before, now)[state := Entry(v, now + ttl * 1000)]
      case TakeCall(_, state) => before - {state}
  }

  /**
   The map holds nothing but pending entries, and misses only entries that a
   sweep found expired: sweeping is unobservable to a clock that does not go back.
   */
  lemma {:induction false} StoredIsPending(calls: seq<Call>, state: string)
    requires Ordered(calls)
    ensures state in Stored(calls) ==> Pending(calls, state) == Some(Stored(calls)[state])
    ensures Pending(calls, state).Some? && state !in Stored(calls) ==>
              calls != [] && Pending(calls, state).value.expiresAt <= calls[|calls| - 1].now
  {
    if calls != [] {
      StoredIsPending(calls[..|calls| - 1], state);
    }
  }

  /** Reading the code's map gives the answer the history calls for. */
  lemma TakeAnswers(calls: seq<Call>, now: int, state: string)
    requires Ordered(calls + [TakeCall(now, state)])
    ensures Answer(calls, now, state)
         == if state in Stored(calls) && Stored(calls)[state].expiresAt > now then Some(Stored(calls)[state].codeVerifier) else None
  {
    var all := calls + [TakeCall(now, state)];
    assert forall i :: 0 <= i < |calls| ==> all[i] == calls[i];
    assert calls != [] ==> all[|calls| - 1].now <= all[|calls|].now;
    StoredIsPending(calls, state);
  }

  /** A verifier is handed out once: a second `take` finds nothing, whatever was called in between but `set`. */
  lemma {:induction false} SingleUse(calls: seq<Call>, now: int, state: string, between: seq<Call>, later: int)
    requires forall c :: c in between && c.SetCall? ==> c.state != state
    ensures Answer(calls + [TakeCall(now, state)] + between, later, state) == None
  {
    var all := calls + [TakeCall(now, state)] + between;
    if between == [] {
      assert all == calls + [TakeCall(now, state)];
    } else {
      assert all[..|all| - 1] == calls + [TakeCall(now, state)] + between[..|between| - 1];
      SingleUse(calls, now, state, between[..|between| - 1], later);
    }
  }

  /** Until its seconds are over a `set` is found, and then no more, whatever happens to other states meanwhile. */
  lemma {:induction false} FoundUntilItExpires(calls: seq<Call>, at: int, state: string, codeVerifier: string, ttlSeconds: int,
                                               between: seq<Call>, now: int)
    requires forall c :: c in between ==> c.state != state
    ensures Answer(calls + [SetCall(at, state, codeVerifier, ttlSeconds)] + between, now, state)
         == if now < at + 1000 * ttlSeconds then Some(codeVerifier) else None
  {
    var all := calls + [SetCall(at, state, codeVerifier, ttlSeconds)] + between;
    if between == [] {
      assert all == calls + [SetCall(at, state, codeVerifier, ttlSeconds)];
    } else {
      assert all[..|all| - 1] == calls + [SetCall(at, state, codeVerifier, ttlSeconds)] + between[..|between| - 1];
      FoundUntilItExpires(calls, at, state, codeVerifier, ttlSeconds, between[..|between| - 1], now);
    }
  }

  /** Abandoned logins do not pile up: after a `set`, everything else in the map is unexpired. */
  lemma SetLeavesNoExpired(calls: seq<Call>, state: string)
    requires calls != [] && calls[|calls| - 1].SetCall?
    requires state in Stored(calls) && state != calls[|calls| - 1].state
    ensures Stored(calls)[state].expiresAt > calls[|calls| - 1].now
  {
  }

  class InMemoryPkceStore {
    var pending: map<string, Entry>
    ghost var calls: seq<Call>

    ghost predicate Valid()
      reads this
    {
      pending == Stored(calls) && Ordered(calls)
    }

    /** The clock has not gone back since the last call. */
    ghost predicate Current(now: int)
      reads this
    {
      forall c :: c in calls ==> c.now <= now
    }

    constructor ()
      ensures Valid() && calls == []
    {
      pending, calls := map[], [];
    }

    method Set(now: int, state: string, codeVerifier: string, ttlSeconds: int)
      requires Valid() && Current(now)
      modifies this
      ensures Valid() && calls == old(calls) + [SetCall(now, state, codeVerifier, ttlSeconds)]
    {
      Sweep(now);
      pending := pending[state := Entry(codeVerifier, now + ttlSeconds * 1000)];
      calls := calls + [SetCall(now, state, codeVerifier, ttlSeconds)];
      assert calls[..|calls| - 1] == old(calls);
    }

    /** Deletes before it looks at the expiry; answers as the history of calls demands. */
    method Take(now: int, state: string) returns (codeVerifier: Option<string>)
      requires Valid() && Current(now)
      modifies this
      ensures Valid() && calls == old(calls) + [TakeCall(now, state)]
      ensures codeVerifier == Answer(old(calls), now, state)
    {
      TakeAnswers(calls, now, state);
      var entry := if state in pending then Some(pending[state]) else None;
      pending := pending - {state};
      calls := calls + [TakeCall(now, state)];
      assert calls[..|calls| - 1] == old(calls);
      if entry.None? || entry.value.expiresAt <= now {
        return None;
      }
      codeVerifier := Some(entry.value.codeVerifier);
    }

    method Sweep(now: int)
      modifies this`pending
      ensures pending == Swept(old(pending), now)
    {
      var todo := pending.Keys;
      while todo != {}
        invariant todo <= pending.Keys <= old(pending).Keys
        invariant forall s :: s in pending ==> pending[s] == old(pending)[s]
        invariant forall s :: s in old(pending) && s !in todo ==>
                    (s in pending <==> old(pending)[s].expiresAt > now)
        decreases |todo|
      {
        var state :| state in todo;
        todo := todo - {state};
        if pending[state].expiresAt <= now {
          pending := pending - {state};
        }
      }
    }
  }
}
