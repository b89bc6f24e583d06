/**
 How a token refresh ends, and what it leaves in the store: which failures end
 the session and which keep it, with the status codes spelled out.
 */
module SessionOutcomes {
  import opened Wrappers
  import opened Sessions

  /** The refresh token under ciphertext `enc`, if there is one and it opens. */
  function Readable(cfg: Config, w: World, sid: string): Option<string> {
    if sid !in w.store || w.store[sid].enc.refreshToken.None? then None
    else cfg.cipher.open(w.store[sid].enc.refreshToken.value)
  }

  /** A refresh of session `sid` is under way. */
  predicate UnderWay(w: World, sid: string) {
    sid in w.inFlight && !w.inFlight[sid].Settled?
  }

  /** The token that the flight holds is the one the provider honours. */
  predicate Honours(w: World, sid: string) {
    sid in w.idp && sid in w.inFlight && w.inFlight[sid].Exchanging? && w.idp[sid] == w.inFlight[sid].refreshToken
  }

  /** The refresh of `sid` fails for good at event `e`: there is nothing to refresh with, or the grant is dead. */
  predicate EndsSession(cfg: Config, w: World, e: Event, sid: string) {
    match e
    case FlightReads(x) => x == sid && UnderWay(w, sid) && w.inFlight[sid].Getting? && Readable(cfg, w, sid).None?
    case FlightExchanges(x, reply, _) =>
      && x == sid && UnderWay(w, sid) && w.inFlight[sid].Exchanging?
      && (if reply.Status? then 400 <= reply.code <= 499 else !Honours(w, sid))
    case _ => false
  }

  /** It fails for now: the endpoint is down, its answer was lost, or the write was rejected. */
  predicate KeepsSession(w: World, e: Event, sid: string) {
    match e
    case FlightExchanges(x, reply, _) =>
      && x == sid && UnderWay(w, sid) && w.inFlight[sid].Exchanging?
      && (if reply.Status? then reply.code < 400 || reply.code >= 500 else reply.Dropped? && Honours(w, sid))
    case FlightWrites(x, ok) => x == sid && UnderWay(w, sid) && w.inFlight[sid].Writing? && !ok
    case _ => false
  }

  /** It succeeds, and the renewed record is stored. */
  predicate Renews(w: World, e: Event, sid: string) {
    e == FlightWrites(sid, true) && UnderWay(w, sid) && w.inFlight[sid].Writing?
  }

  /** How event `e` settles the refresh of `sid`, if it does. */
  function EndsAs(cfg: Config, w: World, e: Event, sid: string): Option<RefreshResult> {
    if EndsSession(cfg, w, e, sid) then Some(Failed(true))
    else if KeepsSession(w, e, sid) then Some(Failed(false))
    else if Renews(w, e, sid) then Some(Refreshed(w.inFlight[sid].accessToken))
    else if e == FlightReadFails(sid) && UnderWay(w, sid) && w.inFlight[sid].Getting? then Some(Threw)
    else None
  }

  /** The flight of `sid` after event `e`. */
  predicate EndsRight(cfg: Config, w: World, e: Event, sid: string, r: World) {
    var res := EndsAs(cfg, w, e, sid);
    && (res.Some? ==> sid in r.inFlight && r.inFlight[sid] == Settled(res.value))
    && (res.None? ==> (UnderWay(w, sid) ==> UnderWay(r, sid)) && (!UnderWay(w, sid) && UnderWay(r, sid) ==> e == CallRefresh(sid)))
  }

  lemma ReadEnds(cfg: Config, w: World, x: string, sid: string)
    ensures EndsRight(cfg, w, FlightReads(x), sid, Step(cfg, w, FlightReads(x)))
  {
  }

  lemma ExchangeEnds(cfg: Config, w: World, x: string, reply: Reply, iv: nat, sid: string)
    ensures EndsRight(cfg, w, FlightExchanges(x, reply, iv), sid, Step(cfg, w, FlightExchanges(x, reply, iv)))
  {
    hide Updated, Seal;
  }

  lemma ExchangeStoresNothing(cfg: Config, w: World, x: string, reply: Reply, iv: nat)
    ensures Exchange(cfg, w, x, reply, iv).store == w.store
  {
    hide Updated, Seal;
  }

  lemma WriteEnds(cfg: Config, w: World, x: string, ok: bool, sid: string)
    ensures EndsRight(cfg, w, FlightWrites(x, ok), sid, Step(cfg, w, FlightWrites(x, ok)))
    ensures !ok ==> Step(cfg, w, FlightWrites(x, ok)).store == w.store
  {
  }

  lemma OtherEnds(cfg: Config, w: World, e: Event, sid: string)
    requires !e.FlightReads? && !e.FlightExchanges? && !e.FlightWrites?
    ensures EndsRight(cfg, w, e, sid, Step(cfg, w, e))
  {
  }

  /**
   How a refresh ends, turn by turn, in any world: terminally iff the session is
   unknown, has no refresh token or one that does not open, or the endpoint
   answers with a status from 400 to 499 or refuses a spent token; transiently
   iff it answers with any other error, does not answer, its answer is lost, or
   the write is rejected; well iff the write lands. None of the failures touches
   the store.
   */
  lemma RefreshEndsIff(cfg: Config, w: World, e: Event, sid: string)
    ensures EndsRight(cfg, w, e, sid, Step(cfg, w, e))
    ensures EndsSession(cfg, w, e, sid) || KeepsSession(w, e, sid) ==> Step(cfg, w, e).store == w.store
  {
    hide EndsRight, Exchange, Write;
    match e
    case FlightReads(x) => ReadEnds(cfg, w, x, sid);
    case FlightExchanges(x, reply, iv) =>
      ExchangeEnds(cfg, w, x, reply, iv, sid);
      ExchangeStoresNothing(cfg, w, x, reply, iv);
    case FlightWrites(x, ok) => WriteEnds(cfg, w, x, ok, sid);
    case _ => OtherEnds(cfg, w, e, sid);
  }

  // ---------- runs ----------

  /** Turn `k` settled the refresh of `sid` as `res`. */
  predicate EndedAt(cfg: Config, events: seq<Event>, k: nat, sid: string, res: RefreshResult)
    requires k < |events|
  {
    EndsAs(cfg, Run(cfg, events[..k]), events[k], sid) == Some(res)
  }

  ghost predicate Ended(cfg: Config, events: seq<Event>, sid: string, res: RefreshResult) {
    exists k :: 0 <= k < |events| && EndedAt(cfg, events, k, sid, res)
  }

  /** A settled refresh keeps its result until it is cleared. */
  lemma SettledStays(cfg: Config, w: World, e: Event, sid: string)
    requires !UnderWay(w, sid) && EndsAs(cfg, w, e, sid).None?
    ensures var r := Step(cfg, w, e);
            sid in r.inFlight && r.inFlight[sid].Settled? ==> sid in w.inFlight && r.inFlight[sid] == w.inFlight[sid]
  {
    hide Exchange, Write;
    match e
    case FlightExchanges(x, reply, iv) => ExchangeElsewhere(cfg, w, x, reply, iv, sid);
    case FlightWrites(x, ok) => WriteElsewhere(cfg, w, x, ok, sid);
    case _ =>
  }

  /** `r` differs from `w` in the flight of `x` at most. */
  ghost predicate MovesOnly(w: World, r: World, x: string) {
    forall y :: y != x ==> (y in r.inFlight <==> y in w.inFlight) && (y in w.inFlight ==> r.inFlight[y] == w.inFlight[y])
  }

  lemma ExchangeMoves(cfg: Config, w: World, x: string, reply: Reply, iv: nat)
    requires x in w.inFlight && w.inFlight[x].Exchanging?
    ensures MovesOnly(w, Exchange(cfg, w, x, reply, iv), x)
  {
    hide Updated, Seal;
  }

  lemma ExchangeElsewhere(cfg: Config, w: World, x: string, reply: Reply, iv: nat, sid: string)
    requires !UnderWay(w, sid)
    ensures var r := Exchange(cfg, w, x, reply, iv);
            (sid in r.inFlight <==> sid in w.inFlight) && (sid in w.inFlight ==> r.inFlight[sid] == w.inFlight[sid])
  {
    if x in w.inFlight && w.inFlight[x].Exchanging? {
      hide Exchange;
      ExchangeMoves(cfg, w, x, reply, iv);
    }
  }

  lemma WriteElsewhere(cfg: Config, w: World, x: string, ok: bool, sid: string)
    requires !UnderWay(w, sid)
    ensures var r := Write(cfg, w, x, ok);
            (sid in r.inFlight <==> sid in w.inFlight) && (sid in w.inFlight ==> r.inFlight[sid] == w.inFlight[sid])
  {
  }

  lemma EndedSnoc(cfg: Config, events: seq<Event>, e: Event, sid: string, res: RefreshResult)
    ensures Ended(cfg, events, sid, res) ==> Ended(cfg, events + [e], sid, res)
    ensures EndsAs(cfg, Run(cfg, events), e, sid) == Some(res) ==> Ended(cfg, events + [e], sid, res)
  {
    hide Run, EndsAs;
    var all := events + [e];
    assert all[..|events|] == events;
    if Ended(cfg, events, sid, res) {
      var k :| 0 <= k < |events| && EndedAt(cfg, events, k, sid, res);
      assert all[..k] == events[..k];
      assert EndedAt(cfg, all, k, sid, res);
    }
    if EndsAs(cfg, Run(cfg, events), e, sid) == Some(res) {
      assert EndedAt(cfg, all, |events|, sid, res);
    }
  }

  /**
   Over runs: whatever result the callers of a refresh are given, some event of
   the run settled it so. In particular nobody is logged out but by a session
   that cannot be refreshed or a grant that the endpoint says is dead.
   */
  lemma {:induction false} ResultsHaveCauses(cfg: Config, events: seq<Event>, sid: string)
    ensures var w := Run(cfg, events);
            sid in w.inFlight && w.inFlight[sid].Settled? ==> Ended(cfg, events, sid, w.inFlight[sid].result)
  {
    hide Step, EndsAs, Ended;
    if events != [] {
      var n := |events| - 1;
      var w := Run(cfg, events[..n]);
      ResultsHaveCauses(cfg, events[..n], sid);
      RefreshEndsIff(cfg, w, events[n], sid);
      assert events == events[..n] + [events[n]];
      var r := Run(cfg, events);
      if sid in r.inFlight && r.inFlight[sid].Settled? {
        EndedSnoc(cfg, events[..n], events[n], sid, r.inFlight[sid].result);
        if EndsAs(cfg, w, events[n], sid).None? && !UnderWay(w, sid) {
          SettledStays(cfg, w, events[n], sid);
        }
      }
    }
  }

  // ---------- a refresh from its call on ----------

  /**
   A call that finds no refresh of its session begins one, which presents the
   token of the stored session as it reads it, and has touched nothing else;
   `RefreshRenews` takes it from there. Once it has ended it gives way to the next.
   */
  lemma RefreshBegins(cfg: Config, w: World, sid: string)
    requires sid !in w.inFlight && Readable(cfg, w, sid).Some?
    ensures var r := Step(cfg, Step(cfg, w, CallRefresh(sid)), FlightReads(sid));
            r == w.(inFlight := w.inFlight[sid := Exchanging(w.store[sid], Readable(cfg, w, sid).value)])
    ensures forall res :: Step(cfg, w.(inFlight := w.inFlight[sid := Settled(res)]), FlightClears(sid)) == w
  {
    forall res ensures Step(cfg, w.(inFlight := w.inFlight[sid := Settled(res)]), FlightClears(sid)) == w {
      assert w.inFlight[sid := Settled(res)] - {sid} == w.inFlight;
    }
  }
}
