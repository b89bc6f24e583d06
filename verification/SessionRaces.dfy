/**
 Which interleavings of refreshes and slides leave a spent refresh token in the
 store, in terms of the events alone.
 */
module SessionRaces {
  import opened Wrappers
  import opened Sessions
  import opened SessionTheorems

  // ---------- what the provider issues ----------

  function NextToken(reply: Reply): Option<string> {
    match reply
    case Granted(tokens, _) => tokens.refreshToken
    case Dropped(next) => next
    case Status(_) => None
  }

  /** The provider honours the token that the flight presents. */
  predicate Accepted(w: World, sid: string, reply: Reply) {
    && sid in w.inFlight && w.inFlight[sid].Exchanging? && !reply.Status?
    && sid in w.idp && w.idp[sid] == w.inFlight[sid].refreshToken
  }

  /** The refresh token that turn `e` has the provider issue, and for which session. */
  function Issues(w: World, e: Event): Option<(string, string)> {
    match e
    case Login(sid, _, tokens, _, _) =>
      if sid in w.profiles || tokens.refreshToken.None? then None else Some((sid, tokens.refreshToken.value))
    case FlightExchanges(sid, reply, _) =>
      if !Accepted(w, sid, reply) || NextToken(reply).None? then None else Some((sid, NextToken(reply).value))
    case _ => None
  }

  /** The exchange replaces the refresh token of `sid` by another. */
  predicate Rotates(w: World, e: Event, sid: string) {
    && e.FlightExchanges? && e.sid == sid
    && Issues(w, e).Some? && sid in w.idp && Issues(w, e).value.1 != w.idp[sid]
  }

  function Issued(cfg: Config, events: seq<Event>): set<(string, string)> {
    if events == [] then {}
    else
      var n := |events| - 1;
      var x := Issues(Run(cfg, events[..n]), events[n]);
      Issued(cfg, events[..n]) + if x.Some? then {x.value} else {}
  }

  /** No rotation goes back to a token issued before. */
  ghost predicate NoReissue(cfg: Config, events: seq<Event>) {
    forall k, sid :: 0 <= k < |events| && Rotates(Run(cfg, events[..k]), events[k], sid) ==>
      Issues(Run(cfg, events[..k]), events[k]).value !in Issued(cfg, events[..k])
  }

  // ---------- the events that do harm ----------

  function TokenOf(cfg: Config, data: SessionData): Option<string> {
    Open(cfg.cipher, data.enc.refreshToken)
  }

  /** The write under way will store another refresh token than the store holds. */
  predicate Pending(cfg: Config, w: World, sid: string) {
    IsWriting(w, sid) && sid in w.store && TokenOf(cfg, w.inFlight[sid].updated) != TokenOf(cfg, w.store[sid])
  }

  /** A rotated token of a stored session is lost: its write is rejected, or the answer that carried it never came. */
  predicate Loses(cfg: Config, w: World, e: Event) {
    match e
    case FlightWrites(sid, ok) => !ok && Pending(cfg, w, sid)
    case FlightExchanges(sid, reply, _) => reply.Dropped? && Rotates(w, e, sid) && sid in w.store
    case _ => false
  }

  /** The fallback's read of slide `id` takes effect. */
  predicate Reads(cfg: Config, w: World, e: Event, id: nat) {
    && e == SlideRead(id) && !cfg.hasTouch
    && id in w.slides && w.slides[id].reread.None? && w.slides[id].sid in w.store
  }

  /** The turn of the last read of slide `id`. */
  function LastRead(cfg: Config, events: seq<Event>, id: nat): (r: Option<nat>)
    ensures r.Some? ==> r.value < |events|
  {
    if events == [] then None
    else
      var n := |events| - 1;
      if Reads(cfg, Run(cfg, events[..n]), events[n], id) then Some(n) else LastRead(cfg, events[..n], id)
  }

  predicate RotatesAt(cfg: Config, events: seq<Event>, k: nat, sid: string)
    requires k < |events|
  {
    Rotates(Run(cfg, events[..k]), events[k], sid)
  }

  /** A rotating exchange of `sid` after turn `j`. */
  ghost predicate RotatedSince(cfg: Config, events: seq<Event>, j: nat, sid: string) {
    exists k :: j < k < |events| && RotatesAt(cfg, events, k, sid)
  }

  /** The slide's overwrite takes effect, and no flight is about to write over it. */
  predicate Overwrites(cfg: Config, w: World, id: nat) {
    !cfg.hasTouch && id in w.slides && w.slides[id].reread.Some? && !IsWriting(w, w.slides[id].sid)
  }

  /**
   The slide read before a rotation and writes after it: a rotating exchange of
   its session falls between its read and its write, or its read fell between
   such an exchange and the write of its result.
   */
  ghost predicate RollsBack(cfg: Config, events: seq<Event>, id: nat) {
    var w, j := Run(cfg, events), LastRead(cfg, events, id);
    && Overwrites(cfg, w, id) && j.Some?
    && (Pending(cfg, Run(cfg, events[..j.value]), w.slides[id].sid) || RotatedSince(cfg, events, j.value, w.slides[id].sid))
  }

  /** Turn `e` after `events` leaves a spent token behind. */
  ghost predicate Harms(cfg: Config, events: seq<Event>, e: Event) {
    Loses(cfg, Run(cfg, events), e) || (e.SlideWrite? && RollsBack(cfg, events, e.id))
  }

  // ---------- what a slide has read ----------

  /** The slide's snapshot is what the store held at its last read. */
  ghost predicate ReadAt(cfg: Config, events: seq<Event>, id: nat, s: Slide) {
    var j := LastRead(cfg, events, id);
    && j.Some?
    && s.sid in Run(cfg, events[..j.value]).store
    && s.reread == Some(Run(cfg, events[..j.value]).store[s.sid])
  }

  ghost predicate AllRead(cfg: Config, events: seq<Event>) {
    forall id :: id in Run(cfg, events).slides && Run(cfg, events).slides[id].reread.Some? ==>
      ReadAt(cfg, events, id, Run(cfg, events).slides[id])
  }

  /** A slide that has read and is still there was there before, unless it has just read. */
  lemma SlideHistory(cfg: Config, w: World, e: Event, id: nat)
    requires id in Step(cfg, w, e).slides && Step(cfg, w, e).slides[id].reread.Some?
    ensures if Reads(cfg, w, e, id)
            then Step(cfg, w, e).slides[id].reread == Some(w.store[w.slides[id].sid])
                 && Step(cfg, w, e).slides[id].sid == w.slides[id].sid
            else id in w.slides && Step(cfg, w, e).slides[id] == w.slides[id]
  {
    if !IsSlideEvent(e) {
      OtherSlides(cfg, w, e);
    }
  }

  lemma OtherSlides(cfg: Config, w: World, e: Event)
    requires !IsSlideEvent(e)
    ensures Step(cfg, w, e).slides == w.slides
  {
  }

  lemma {:induction false} RunReads(cfg: Config, events: seq<Event>)
    ensures AllRead(cfg, events)
  {
    if events != [] {
      var n := |events| - 1;
      var w := Run(cfg, events[..n]);
      RunReads(cfg, events[..n]);
      forall id | id in Run(cfg, events).slides && Run(cfg, events).slides[id].reread.Some?
        ensures ReadAt(cfg, events, id, Run(cfg, events).slides[id])
      {
        SlideHistory(cfg, w, events[n], id);
        if !Reads(cfg, w, events[n], id) {
          assert ReadAt(cfg, events[..n], id, w.slides[id]);
          var j := LastRead(cfg, events[..n], id).value;
          assert events[..n][..j] == events[..j];
        }
      }
    }
  }

  // ---------- what the provider honours, over time ----------

  lemma ExchangeHonours(cfg: Config, w: World, sid: string, reply: Reply, iv: nat)
    ensures var r := Exchange(cfg, w, sid, reply, iv);
            && r.profiles == w.profiles
            && r.idp == if Accepted(w, sid, reply) && NextToken(reply).Some? then w.idp[sid := NextToken(reply).value] else w.idp
  {
  }

  lemma OthersHonour(cfg: Config, w: World, e: Event)
    requires !e.Login? && !e.FlightExchanges?
    ensures Step(cfg, w, e).idp == w.idp && Step(cfg, w, e).profiles == w.profiles
  {
  }

  lemma HonouredChanges(cfg: Config, w: World, e: Event, sid: string)
    requires sid in w.profiles
    ensures sid in Step(cfg, w, e).profiles
    ensures sid in Step(cfg, w, e).idp <==> sid in w.idp
    ensures sid in w.idp ==>
              Step(cfg, w, e).idp[sid] == if Rotates(w, e, sid) then Issues(w, e).value.1 else w.idp[sid]
    ensures Rotates(w, e, sid) ==> Issues(w, e).value.0 == sid
  {
    match e
    case FlightExchanges(x, reply, iv) => ExchangeHonours(cfg, w, x, reply, iv);
    case Login(_, _, _, _, _) =>
    case _ => OthersHonour(cfg, w, e);
  }

  /** Without a rotation the same token stays honoured; after one, a token not issued before turn `j` is. */
  lemma {:induction false} HonouredSince(cfg: Config, events: seq<Event>, j: nat, sid: string)
    requires j < |events| && sid in Run(cfg, events[..j + 1]).profiles
    ensures sid in Run(cfg, events).profiles
    ensures sid in Run(cfg, events).idp <==> sid in Run(cfg, events[..j + 1]).idp
    ensures sid in Run(cfg, events).idp && !RotatedSince(cfg, events, j, sid) ==>
              Run(cfg, events).idp[sid] == Run(cfg, events[..j + 1]).idp[sid]
    ensures RotatedSince(cfg, events, j, sid) && NoReissue(cfg, events) ==>
              sid in Run(cfg, events).idp && (sid, Run(cfg, events).idp[sid]) !in Issued(cfg, events[..j + 1])
  {
    var n := |events| - 1;
    if j == n {
      assert events[..j + 1] == events;
    } else {
      var init := events[..n];
      assert init[..j + 1] == events[..j + 1];
      assert forall k :: 0 <= k <= n ==> init[..k] == events[..k];
      HonouredSince(cfg, init, j, sid);
      HonouredChanges(cfg, Run(cfg, init), events[n], sid);
      RotatedSnoc(cfg, events, j, sid);
      if NoReissue(cfg, events) {
        NoReissueInit(cfg, events);
        if RotatesAt(cfg, events, n, sid) {
          IssuedGrows(cfg, init, j + 1);
        }
      }
    }
  }

  lemma RotatedSnoc(cfg: Config, events: seq<Event>, j: nat, sid: string)
    requires j < |events| - 1
    ensures var n := |events| - 1;
            RotatedSince(cfg, events, j, sid) <==> RotatedSince(cfg, events[..n], j, sid) || RotatesAt(cfg, events, n, sid)
  {
    var n := |events| - 1;
    forall k | j < k < n ensures RotatesAt(cfg, events[..n], k, sid) <==> RotatesAt(cfg, events, k, sid) {
      assert events[..n][..k] == events[..k];
    }
  }

  lemma NoReissueInit(cfg: Config, events: seq<Event>)
    requires events != [] && NoReissue(cfg, events)
    ensures NoReissue(cfg, events[..|events| - 1])
  {
    var init := events[..|events| - 1];
    forall k, sid | 0 <= k < |init| && Rotates(Run(cfg, init[..k]), init[k], sid)
      ensures Issues(Run(cfg, init[..k]), init[k]).value !in Issued(cfg, init[..k])
    {
      assert init[..k] == events[..k] && init[k] == events[k];
    }
  }

  lemma {:induction false} IssuedGrows(cfg: Config, events: seq<Event>, k: nat)
    requires k <= |events|
    ensures Issued(cfg, events[..k]) <= Issued(cfg, events)
  {
    if k < |events| {
      var init := events[..|events| - 1];
      assert init[..k] == events[..k];
      IssuedGrows(cfg, init, k);
    } else {
      assert events[..k] == events;
    }
  }

  // ---------- every token was issued ----------

  predicate KnownData(c: Cipher, issued: set<(string, string)>, sid: string, data: SessionData) {
    Open(c, data.enc.refreshToken).Some? ==> (sid, Open(c, data.enc.refreshToken).value) in issued
  }

  predicate KnownAt(c: Cipher, issued: set<(string, string)>, w: World, sid: string) {
    && (sid in w.idp ==> (sid, w.idp[sid]) in issued)
    && (sid in w.store ==> KnownData(c, issued, sid, w.store[sid]))
    && (sid in w.inFlight ==> match w.inFlight[sid]
          case Exchanging(data, token) => KnownData(c, issued, sid, data) && (sid, token) in issued
          case Writing(data, _) => KnownData(c, issued, sid, data)
          case _ => true)
  }

  /** Every refresh token stored, held or honoured was issued for its session. */
  ghost predicate Known(c: Cipher, issued: set<(string, string)>, w: World) {
    && (forall sid :: KnownAt(c, issued, w, sid))
    && (forall id :: id in w.slides && w.slides[id].reread.Some? ==>
          KnownData(c, issued, w.slides[id].sid, w.slides[id].reread.value))
  }

  /** A step of one session, with what it has the provider issue. */
  lemma OneSessionKnown(c: Cipher, issued: set<(string, string)>, more: set<(string, string)>, w: World, r: World, sid: string)
    requires Known(c, issued, w) && issued <= more && KnownAt(c, more, r, sid)
    requires forall x :: x != sid ==> SameAt(w, r, x)
    requires forall id :: id in r.slides ==> id in w.slides && r.slides[id] == w.slides[id]
    ensures Known(c, more, r)
  {
    forall x ensures KnownAt(c, more, r, x) {
      if x != sid {
        assert SameAt(w, r, x) && KnownAt(c, issued, w, x);
      }
    }
  }

  function After(issued: set<(string, string)>, w: World, e: Event): set<(string, string)> {
    issued + if Issues(w, e).Some? then {Issues(w, e).value} else {}
  }

  lemma GrantKnown(cfg: Config, issued: set<(string, string)>, w: World, sid: string, tokens: TokenSet, expiresInMs: int, iv: nat)
    requires Sound(cfg.cipher) && Known(cfg.cipher, issued, w)
    requires sid in w.inFlight && w.inFlight[sid].Exchanging?
    ensures Known(cfg.cipher, issued + (if tokens.refreshToken.Some? then {(sid, tokens.refreshToken.value)} else {}),
                  Grant(cfg, w, sid, w.inFlight[sid], tokens, expiresInMs, iv))
  {
    var more := issued + if tokens.refreshToken.Some? then {(sid, tokens.refreshToken.value)} else {};
    assert KnownAt(cfg.cipher, issued, w, sid);
    UpdatedHolds(cfg, w, w.inFlight[sid], tokens, expiresInMs, iv);
    OneSessionKnown(cfg.cipher, issued, more, w, Grant(cfg, w, sid, w.inFlight[sid], tokens, expiresInMs, iv), sid);
  }

  lemma LossKnown(cfg: Config, issued: set<(string, string)>, w: World, sid: string, held: string, next: Option<string>)
    requires Known(cfg.cipher, issued, w)
    ensures Known(cfg.cipher, issued + (if next.Some? then {(sid, next.value)} else {}), LoseAnswer(w, sid, held, next))
  {
    assert KnownAt(cfg.cipher, issued, w, sid);
    OneSessionKnown(cfg.cipher, issued, issued + (if next.Some? then {(sid, next.value)} else {}), w, LoseAnswer(w, sid, held, next), sid);
  }

  lemma RefusalKnown(cfg: Config, issued: set<(string, string)>, w: World, sid: string, reply: Reply, iv: nat)
    requires Known(cfg.cipher, issued, w) && !Accepted(w, sid, reply)
    ensures Known(cfg.cipher, issued, Exchange(cfg, w, sid, reply, iv))
  {
    assert KnownAt(cfg.cipher, issued, w, sid);
    OneSessionKnown(cfg.cipher, issued, issued, w, Exchange(cfg, w, sid, reply, iv), sid);
  }

  lemma ExchangeKnown(cfg: Config, issued: set<(string, string)>, w: World, e: Event)
    requires Sound(cfg.cipher) && Known(cfg.cipher, issued, w) && e.FlightExchanges?
    ensures Known(cfg.cipher, After(issued, w, e), Step(cfg, w, e))
  {
    if !Accepted(w, e.sid, e.reply) {
      assert After(issued, w, e) == issued;
      RefusalKnown(cfg, issued, w, e.sid, e.reply, e.iv);
    } else if e.reply.Granted? {
      GrantKnown(cfg, issued, w, e.sid, e.reply.tokens, e.reply.expiresInMs, e.iv);
    } else {
      LossKnown(cfg, issued, w, e.sid, w.inFlight[e.sid].refreshToken, e.reply.refreshToken);
    }
  }

  lemma LoginKnown(cfg: Config, issued: set<(string, string)>, w: World, e: Event)
    requires Sound(cfg.cipher) && Known(cfg.cipher, issued, w) && e.Login?
    ensures Known(cfg.cipher, After(issued, w, e), Step(cfg, w, e))
  {
    assert KnownAt(cfg.cipher, issued, w, e.sid);
    if e.tokens.refreshToken.Some? {
      assert cfg.cipher.open(cfg.cipher.seal(e.iv + 1, e.tokens.refreshToken.value)) == e.tokens.refreshToken;
    }
    if e.sid !in w.profiles {
      OneSessionKnown(cfg.cipher, issued, After(issued, w, e), w, Step(cfg, w, e), e.sid);
    } else {
      assert After(issued, w, e) == issued;
    }
  }

  lemma FlightKnown(cfg: Config, issued: set<(string, string)>, w: World, e: Event, sid: string)
    requires Known(cfg.cipher, issued, w)
    requires e in {CallRefresh(sid), FlightReads(sid), FlightReadFails(sid), FlightClears(sid), Delete(sid)}
    ensures Known(cfg.cipher, issued, Step(cfg, w, e))
  {
    assert KnownAt(cfg.cipher, issued, w, sid);
    OneSessionKnown(cfg.cipher, issued, issued, w, Step(cfg, w, e), sid);
  }

  lemma WriteKnown(cfg: Config, issued: set<(string, string)>, w: World, sid: string, ok: bool)
    requires Known(cfg.cipher, issued, w)
    ensures Known(cfg.cipher, issued, Write(cfg, w, sid, ok))
  {
    assert KnownAt(cfg.cipher, issued, w, sid);
    OneSessionKnown(cfg.cipher, issued, issued, w, Write(cfg, w, sid, ok), sid);
  }

  lemma SlideWriteKnown(cfg: Config, issued: set<(string, string)>, w: World, id: nat)
    requires Known(cfg.cipher, issued, w)
    ensures Known(cfg.cipher, issued, SlideLands(cfg, w, id))
  {
    if id in w.slides {
      assert KnownAt(cfg.cipher, issued, w, w.slides[id].sid);
      OneSessionKnown(cfg.cipher, issued, issued, w, SlideLands(cfg, w, id), w.slides[id].sid);
    }
  }

  /** Steps that touch only the slides. */
  lemma SlidesKnown(cfg: Config, issued: set<(string, string)>, w: World, e: Event)
    requires Known(cfg.cipher, issued, w)
    requires e.Elapse? || (IsSlideEvent(e) && !e.SlideWrite?)
    ensures Known(cfg.cipher, issued, Step(cfg, w, e))
  {
    var r := Step(cfg, w, e);
    forall x ensures KnownAt(cfg.cipher, issued, r, x) {
      assert KnownAt(cfg.cipher, issued, w, x);
    }
    if e.SlideRead? && e.id in w.slides {
      assert KnownAt(cfg.cipher, issued, w, w.slides[e.id].sid);
    }
  }

  lemma StepKnown(cfg: Config, issued: set<(string, string)>, w: World, e: Event)
    requires Sound(cfg.cipher) && Known(cfg.cipher, issued, w)
    ensures Known(cfg.cipher, After(issued, w, e), Step(cfg, w, e))
  {
    assert Issues(w, e).None? ==> After(issued, w, e) == issued;
    match e
    case Login(_, _, _, _, _) => LoginKnown(cfg, issued, w, e);
    case FlightExchanges(_, _, _) => ExchangeKnown(cfg, issued, w, e);
    case FlightWrites(sid, ok) => WriteKnown(cfg, issued, w, sid, ok);
    case SlideWrite(id) => SlideWriteKnown(cfg, issued, w, id);
    case Delete(sid) => FlightKnown(cfg, issued, w, e, sid);
    case CallRefresh(sid) => FlightKnown(cfg, issued, w, e, sid);
    case FlightReads(sid) => FlightKnown(cfg, issued, w, e, sid);
    case FlightReadFails(sid) => FlightKnown(cfg, issued, w, e, sid);
    case FlightClears(sid) => FlightKnown(cfg, issued, w, e, sid);
    case _ => SlidesKnown(cfg, issued, w, e);
  }

  lemma {:induction false} RunKnown(cfg: Config, events: seq<Event>)
    requires Sound(cfg.cipher)
    ensures Known(cfg.cipher, Issued(cfg, events), Run(cfg, events))
  {
    if events != [] {
      var n := |events| - 1;
      RunKnown(cfg, events[..n]);
      StepKnown(cfg, Issued(cfg, events[..n]), Run(cfg, events[..n]), events[n]);
    }
  }

  // ---------- the events that do harm, and no others ----------

  /** What a slide read was honoured, unless a write of another token was pending then. */
  lemma SnapshotHonoured(cfg: Config, w: World, sid: string)
    requires Safe(cfg, w) && Undisturbed(w) && sid in w.store
    ensures sid in w.idp && !Pending(cfg, w, sid) ==> TokenOf(cfg, w.store[sid]) == Some(w.idp[sid])
    ensures Pending(cfg, w, sid) ==> sid in w.idp && TokenOf(cfg, w.store[sid]) != Some(w.idp[sid])
    ensures sid in w.profiles
  {
    assert SessionOk(cfg, w, sid);
  }

  /** A slide that lands holds a spent token exactly when its session rotated since it read. */
  lemma LandsSpentIff(cfg: Config, events: seq<Event>, id: nat)
    requires Sound(cfg.cipher) && Undisturbed(Run(cfg, events)) && Overwrites(cfg, Run(cfg, events), id)
    ensures var w := Run(cfg, events);
            && (Spent(cfg, w, w.slides[id].sid, w.slides[id].reread.value) ==> RollsBack(cfg, events, id))
            && (RollsBack(cfg, events, id) && NoReissue(cfg, events) ==>
                  Spent(cfg, w, w.slides[id].sid, w.slides[id].reread.value))
  {
    var w := Run(cfg, events);
    var s := w.slides[id];
    RunReads(cfg, events);
    assert ReadAt(cfg, events, id, s);
    var j := LastRead(cfg, events, id).value;
    var v := Run(cfg, events[..j]);
    PrefixSafe(cfg, events, j);
    SnapshotHonoured(cfg, v, s.sid);
    ReadChangesNothing(cfg, events, id);
    HonouredSince(cfg, events, j, s.sid);
    RunKnown(cfg, events[..j]);
    assert KnownAt(cfg.cipher, Issued(cfg, events[..j]), v, s.sid);
  }

  lemma PrefixSafe(cfg: Config, events: seq<Event>, j: nat)
    requires Sound(cfg.cipher) && j <= |events| && Undisturbed(Run(cfg, events))
    ensures Safe(cfg, Run(cfg, events[..j])) && Undisturbed(Run(cfg, events[..j]))
  {
    RunSafe(cfg, events[..j]);
    StaysUndisturbed(cfg, events, j);
  }

  lemma {:induction false} StaysUndisturbed(cfg: Config, events: seq<Event>, j: nat)
    requires j <= |events| && Undisturbed(Run(cfg, events))
    ensures Undisturbed(Run(cfg, events[..j]))
  {
    if j < |events| {
      var init := events[..|events| - 1];
      DisturbedStays(cfg, Run(cfg, init), events[|events| - 1]);
      assert init[..j] == events[..j];
      StaysUndisturbed(cfg, init, j);
    } else {
      assert events[..j] == events;
    }
  }

  /** The turn of a read issues nothing and leaves tokens and logins as they are. */
  lemma {:induction false} ReadChangesNothing(cfg: Config, events: seq<Event>, id: nat)
    requires LastRead(cfg, events, id).Some?
    ensures var j := LastRead(cfg, events, id).value;
            && Reads(cfg, Run(cfg, events[..j]), events[j], id)
            && Run(cfg, events[..j + 1]).idp == Run(cfg, events[..j]).idp
            && Run(cfg, events[..j + 1]).profiles == Run(cfg, events[..j]).profiles
            && Issued(cfg, events[..j + 1]) == Issued(cfg, events[..j])
  {
    var n := |events| - 1;
    var j := LastRead(cfg, events, id).value;
    if j < n {
      ReadChangesNothing(cfg, events[..n], id);
      assert events[..n][..j] == events[..j] && events[..n][..j + 1] == events[..j + 1] && events[..n][j] == events[j];
    } else {
      assert events[..j + 1] == events && events[..j + 1][..j] == events[..j];
    }
  }

  lemma LosesIff(cfg: Config, w: World, e: Event)
    requires Safe(cfg, w) && Undisturbed(w) && !e.SlideWrite?
    ensures Undisturbed(Step(cfg, w, e)) <==> !Loses(cfg, w, e)
  {
    match e
    case FlightWrites(sid, ok) => assert SessionOk(cfg, w, sid);
    case FlightExchanges(sid, reply, iv) => assert SessionOk(cfg, w, sid);
    case _ => OthersDisturbNothing(cfg, w, e);
  }

  lemma OthersDisturbNothing(cfg: Config, w: World, e: Event)
    requires !e.SlideWrite? && !e.FlightWrites? && !e.FlightExchanges?
    ensures Step(cfg, w, e).lost == w.lost && Step(cfg, w, e).rolledBack == w.rolledBack
  {
  }

  lemma SlideDisturbsIff(cfg: Config, w: World, id: nat)
    requires Undisturbed(w)
    ensures Undisturbed(SlideLands(cfg, w, id))
       <==> !(Overwrites(cfg, w, id) && Spent(cfg, w, w.slides[id].sid, w.slides[id].reread.value))
  {
  }

  /** From an undisturbed run, a turn disturbs exactly when it does harm. */
  lemma TurnHarmsIff(cfg: Config, events: seq<Event>, e: Event)
    requires Sound(cfg.cipher) && Undisturbed(Run(cfg, events))
    ensures !Harms(cfg, events, e) ==> Undisturbed(Step(cfg, Run(cfg, events), e))
    ensures NoReissue(cfg, events) && Harms(cfg, events, e) ==> !Undisturbed(Step(cfg, Run(cfg, events), e))
  {
    RunSafe(cfg, events);
    if e.SlideWrite? {
      SlideDisturbsIff(cfg, Run(cfg, events), e.id);
      if Overwrites(cfg, Run(cfg, events), e.id) {
        LandsSpentIff(cfg, events, e.id);
      }
    } else {
      LosesIff(cfg, Run(cfg, events), e);
    }
  }

  /** No turn of the run does harm. */
  ghost predicate Harmless(cfg: Config, events: seq<Event>) {
    forall k :: 0 <= k < |events| ==> !Harms(cfg, events[..k], events[k])
  }

  lemma HarmlessInit(cfg: Config, events: seq<Event>)
    requires events != []
    ensures var n := |events| - 1;
            Harmless(cfg, events) <==> Harmless(cfg, events[..n]) && !Harms(cfg, events[..n], events[n])
  {
    var n := |events| - 1;
    assert forall k :: 0 <= k < n ==> events[..n][..k] == events[..k] && events[..n][k] == events[k];
  }

  lemma {:induction false} UndisturbedIff(cfg: Config, events: seq<Event>)
    requires Sound(cfg.cipher)
    ensures Harmless(cfg, events) ==> Undisturbed(Run(cfg, events))
    ensures NoReissue(cfg, events) && Undisturbed(Run(cfg, events)) ==> Harmless(cfg, events)
  {
    if events != [] {
      var n := |events| - 1;
      UndisturbedIff(cfg, events[..n]);
      HarmlessInit(cfg, events);
      DisturbedStays(cfg, Run(cfg, events[..n]), events[n]);
      if NoReissue(cfg, events) {
        NoReissueInit(cfg, events);
      }
      if Undisturbed(Run(cfg, events[..n])) {
        TurnHarmsIff(cfg, events[..n], events[n]);
      }
    }
  }

  /**
   Rotation safety. In every interleaving of refreshes, slides, logins and
   deletions against a provider that never goes back to an old token, the stored
   refresh token of every session is the one the provider honours, at every
   moment outside exchange-to-write, if and only if
    - no write of a rotated token of a stored session is rejected, and no answer
      that carried one is lost;
    - no slide of a touch-less store overwrites after a rotating exchange of its
      session fell between its read and its write, or its read between such an
      exchange and the write of its result, unless a flight is about to write.
   */
  lemma RotationSafetyIff(cfg: Config, events: seq<Event>)
    requires Sound(cfg.cipher) && NoReissue(cfg, events)
    ensures AlwaysHonoured(cfg, events) <==> Harmless(cfg, events)
  {
    UndisturbedIff(cfg, events);
    HonouredUntilRecorded(cfg, events);
  }

  /** That the condition suffices needs nothing of the provider; and then no refresh is refused. */
  lemma HarmlessIsSafe(cfg: Config, events: seq<Event>)
    requires Sound(cfg.cipher) && Harmless(cfg, events)
    ensures AlwaysHonoured(cfg, events) && Run(cfg, events).refused == {}
  {
    UndisturbedIff(cfg, events);
    HonouredUntilRecorded(cfg, events);
    NoSelfLogout(cfg, events);
  }

  /** Writes succeed and answers arrive. */
  predicate Dependable(events: seq<Event>) {
    forall e :: e in events ==> (e.FlightWrites? ==> e.ok) && (e.FlightExchanges? ==> !e.reply.Dropped?)
  }

  /**
   On a store that honours `touch`, slides do no harm: if writes succeed and
   answers arrive, every stored token is honoured throughout, in any interleaving
   of refreshes and slides, and no refresh is ever refused.
   */
  lemma TouchIsSafe(cfg: Config, events: seq<Event>)
    requires Sound(cfg.cipher) && cfg.hasTouch && Dependable(events)
    ensures AlwaysHonoured(cfg, events) && Run(cfg, events).refused == {}
  {
    forall k | 0 <= k < |events| ensures !Harms(cfg, events[..k], events[k]) {
      assert events[k] in events;
    }
    HarmlessIsSafe(cfg, events);
  }

  /** With `touch`, only a lost rotation does harm, and it always does. */
  lemma TouchLosesIff(cfg: Config, events: seq<Event>)
    requires Sound(cfg.cipher) && cfg.hasTouch && NoReissue(cfg, events)
    ensures AlwaysHonoured(cfg, events)
       <==> forall k :: 0 <= k < |events| ==> !Loses(cfg, Run(cfg, events[..k]), events[k])
  {
    RotationSafetyIff(cfg, events);
    forall k | 0 <= k < |events|
      ensures Harms(cfg, events[..k], events[k]) <==> Loses(cfg, Run(cfg, events[..k]), events[k])
    {
    }
  }
}
