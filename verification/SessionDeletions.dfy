/**
 Which deleted sessions a slide brings back, in terms of the events of the run.
 */
module SessionDeletions {
  import opened Sessions
  import opened SessionTheorems
  import opened SessionRaces

  /** The overwrite of slide `id` takes effect. */
  predicate Lands(cfg: Config, w: World, id: nat) {
    !cfg.hasTouch && id in w.slides && w.slides[id].reread.Some?
  }

  /** Event `e` stores a record for session `sid`, whether or not there is one. */
  predicate Stores(cfg: Config, w: World, e: Event, sid: string) {
    match e
    case Login(x, _, _, _, _) => x == sid && sid !in w.profiles
    case FlightWrites(x, ok) => x == sid && ok && IsWriting(w, sid)
    case SlideWrite(id) => Lands(cfg, w, id) && w.slides[id].sid == sid
    case _ => false
  }

  lemma ExchangeStores(cfg: Config, w: World, sid: string, reply: Reply, iv: nat)
    ensures Exchange(cfg, w, sid, reply, iv).store == w.store
  {
  }

  lemma WriteStores(cfg: Config, w: World, sid: string, ok: bool)
    ensures Write(cfg, w, sid, ok).store.Keys == w.store.Keys + if ok && IsWriting(w, sid) then {sid} else {}
  {
  }

  lemma SlideStores(cfg: Config, w: World, id: nat)
    ensures SlideLands(cfg, w, id).store.Keys == w.store.Keys + if Lands(cfg, w, id) then {w.slides[id].sid} else {}
  {
  }

  /** Only a deletion takes a session away, and only these events bring one. */
  lemma StoredIff(cfg: Config, w: World, e: Event, sid: string)
    ensures sid in Step(cfg, w, e).store.Keys <==> Stores(cfg, w, e, sid) || (sid in w.store.Keys && e != Delete(sid))
  {
    hide Exchange, Write, SlideLands;
    match e
    case FlightExchanges(x, reply, iv) => ExchangeStores(cfg, w, x, reply, iv);
    case FlightWrites(x, ok) => WriteStores(cfg, w, x, ok);
    case SlideWrite(id) => SlideStores(cfg, w, id);
    case _ =>
  }

  predicate StoresAt(cfg: Config, events: seq<Event>, k: nat, sid: string)
    requires k < |events|
  {
    Stores(cfg, Run(cfg, events[..k]), events[k], sid)
  }

  /** Nothing has stored session `sid` after turn `m`. */
  ghost predicate UnstoredSince(cfg: Config, events: seq<Event>, m: nat, sid: string) {
    forall k :: m < k < |events| ==> !StoresAt(cfg, events, k, sid)
  }

  /** Session `sid` was deleted after turn `j`, and nothing has stored it after that. */
  ghost predicate DeletedSince(cfg: Config, events: seq<Event>, j: nat, sid: string) {
    exists m :: j < m < |events| && events[m] == Delete(sid) && UnstoredSince(cfg, events, m, sid)
  }

  lemma UnstoredSnoc(cfg: Config, events: seq<Event>, m: nat, sid: string)
    requires m < |events| - 1
    ensures var n := |events| - 1;
            UnstoredSince(cfg, events, m, sid) <==> UnstoredSince(cfg, events[..n], m, sid) && !StoresAt(cfg, events, n, sid)
  {
    var n := |events| - 1;
    forall k | m < k < n ensures StoresAt(cfg, events[..n], k, sid) <==> StoresAt(cfg, events, k, sid) {
      assert events[..n][..k] == events[..k];
    }
  }

  lemma DeletedSnoc(cfg: Config, events: seq<Event>, j: nat, sid: string)
    requires j < |events| - 1
    ensures var n := |events| - 1;
            DeletedSince(cfg, events, j, sid) <==>
              events[n] == Delete(sid) || (DeletedSince(cfg, events[..n], j, sid) && !StoresAt(cfg, events, n, sid))
  {
    var n := |events| - 1;
    hide StoresAt;
    forall m | j < m < n
      ensures UnstoredSince(cfg, events, m, sid) <==> UnstoredSince(cfg, events[..n], m, sid) && !StoresAt(cfg, events, n, sid)
    {
      UnstoredSnoc(cfg, events, m, sid);
    }
    assert UnstoredSince(cfg, events, n, sid);
    assert forall m :: 0 <= m < n ==> events[..n][m] == events[m];
  }

  /** A session that was stored is gone if and only if it was deleted since, and not stored again. */
  lemma {:induction false} GoneIff(cfg: Config, events: seq<Event>, j: nat, sid: string)
    requires j < |events| && sid in Run(cfg, events[..j + 1]).store
    ensures sid !in Run(cfg, events).store <==> DeletedSince(cfg, events, j, sid)
  {
    hide Step, DeletedSince, Stores;
    var n := |events| - 1;
    if j == n {
      assert events[..j + 1] == events;
      NotSinceLast(cfg, events, j, sid);
    } else {
      assert events[..n][..j + 1] == events[..j + 1];
      GoneIff(cfg, events[..n], j, sid);
      StoredIff(cfg, Run(cfg, events[..n]), events[n], sid);
      DeletionStoresNothing(cfg, Run(cfg, events[..n]), sid);
      DeletedSnoc(cfg, events, j, sid);
    }
  }

  lemma NotSinceLast(cfg: Config, events: seq<Event>, j: nat, sid: string)
    requires j == |events| - 1
    ensures !DeletedSince(cfg, events, j, sid)
  {
  }

  lemma DeletionStoresNothing(cfg: Config, w: World, sid: string)
    ensures !Stores(cfg, w, Delete(sid), sid)
  {
  }

  /** What a slide has read was in the store, and stayed there through the turn of the read. */
  lemma ReadWasStored(cfg: Config, events: seq<Event>, id: nat)
    requires id in Run(cfg, events).slides && Run(cfg, events).slides[id].reread.Some?
    ensures var j := LastRead(cfg, events, id);
            j.Some? && Run(cfg, events).slides[id].sid in Run(cfg, events[..j.value + 1]).store
  {
    RunReads(cfg, events);
    assert ReadAt(cfg, events, id, Run(cfg, events).slides[id]);
    var j := LastRead(cfg, events, id).value;
    ReadChangesNothing(cfg, events, id);
    assert events[..j + 1][..j] == events[..j];
    StoredIff(cfg, Run(cfg, events[..j]), events[j], Run(cfg, events).slides[id].sid);
  }

  /**
   The write of slide `id` lands on a deleted session: between the fallback's
   read and this write the session was deleted, and nothing stored it after that.
   */
  ghost predicate LandsOnDeleted(cfg: Config, events: seq<Event>, id: nat) {
    var w, j := Run(cfg, events), LastRead(cfg, events, id);
    Lands(cfg, w, id) && j.Some? && DeletedSince(cfg, events, j.value, w.slides[id].sid)
  }

  lemma LandsOnDeletedIff(cfg: Config, events: seq<Event>, id: nat)
    ensures var w := Run(cfg, events);
            LandsOnDeleted(cfg, events, id) <==> Lands(cfg, w, id) && w.slides[id].sid !in w.store
  {
    hide Run, DeletedSince;
    if Lands(cfg, Run(cfg, events), id) {
      ReadWasStored(cfg, events, id);
      GoneIff(cfg, events, LastRead(cfg, events, id).value, Run(cfg, events).slides[id].sid);
    }
  }

  /**
   After any run a slide leaves the set of stored sessions as it is, unless its
   write lands on a deleted session, which it brings back. On a store with
   `touch` it changes the expiry of sessions that are there, and nothing else.
   */
  lemma SlidesResurrectIff(cfg: Config, events: seq<Event>, e: Event)
    requires IsSlideEvent(e)
    ensures var w, r := Run(cfg, events), Run(cfg, events + [e]);
            && (r.store.Keys != w.store.Keys <==> e.SlideWrite? && LandsOnDeleted(cfg, events, e.id))
            && (r.store.Keys != w.store.Keys ==> r.store.Keys == w.store.Keys + {w.slides[e.id].sid})
            && (cfg.hasTouch ==>
                  forall sid :: sid in w.store ==>
                    r.store[sid] == w.store[sid].(sessionExpiresAt := r.store[sid].sessionExpiresAt))
  {
    hide Run, LandsOnDeleted;
    RunSnoc(cfg, events, e);
    if e.SlideWrite? {
      LandsOnDeletedIff(cfg, events, e.id);
      SlideStores(cfg, Run(cfg, events), e.id);
    }
  }
}
