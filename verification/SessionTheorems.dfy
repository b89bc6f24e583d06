/**
 What holds of every run of refreshes and slides over one session store.
 */
module SessionTheorems {
  import opened Wrappers
  import opened Sessions

  /** Every stored refresh token is honoured, but for sessions a flight is about to write. */
  ghost predicate Honoured(cfg: Config, w: World) {
    forall sid :: sid in w.store && !IsWriting(w, sid) ==> StoredIsHonoured(cfg, w, sid)
  }

  ghost predicate AlwaysHonoured(cfg: Config, events: seq<Event>) {
    forall k :: 0 <= k <= |events| ==> Honoured(cfg, Run(cfg, events[..k]))
  }

  lemma SafeIsHonoured(cfg: Config, w: World)
    requires Safe(cfg, w) && Undisturbed(w)
    ensures Honoured(cfg, w)
  {
    forall sid | sid in w.store && !IsWriting(w, sid) ensures StoredIsHonoured(cfg, w, sid) {
      assert SessionOk(cfg, w, sid);
    }
  }

  ghost predicate Dishonoured(cfg: Config, w: World, sid: string) {
    sid in w.store && !IsWriting(w, sid) && !StoredIsHonoured(cfg, w, sid)
  }

  lemma LostShows(cfg: Config, w: World, sid: string, reply: Reply, iv: nat)
    requires Safe(cfg, w) && Undisturbed(w) && !Undisturbed(Exchange(cfg, w, sid, reply, iv))
    ensures Dishonoured(cfg, Exchange(cfg, w, sid, reply, iv), sid)
  {
    assert SessionOk(cfg, w, sid);
  }

  lemma FailedWriteShows(cfg: Config, w: World, sid: string, ok: bool)
    requires Undisturbed(w) && !Undisturbed(Write(cfg, w, sid, ok))
    ensures Dishonoured(cfg, Write(cfg, w, sid, ok), sid)
  {
  }

  lemma RollbackShows(cfg: Config, w: World, id: nat)
    requires Undisturbed(w) && !Undisturbed(SlideLands(cfg, w, id))
    ensures Dishonoured(cfg, SlideLands(cfg, w, id), w.slides[id].sid)
  {
  }

  /** The step that loses a rotated token or rolls one back leaves a spent one in the store. */
  lemma DisturbanceShows(cfg: Config, w: World, e: Event)
    requires Safe(cfg, w) && Undisturbed(w) && !Undisturbed(Step(cfg, w, e))
    ensures !Honoured(cfg, Step(cfg, w, e))
  {
    match e
    case FlightExchanges(sid, reply, iv) => LostShows(cfg, w, sid, reply, iv);
    case FlightWrites(sid, ok) => FailedWriteShows(cfg, w, sid, ok);
    case SlideWrite(id) => RollbackShows(cfg, w, id);
  }

  lemma DisturbedStays(cfg: Config, w: World, e: Event)
    ensures Undisturbed(Step(cfg, w, e)) ==> Undisturbed(w)
  {
  }

  lemma AlwaysSnoc(cfg: Config, events: seq<Event>, e: Event)
    ensures Run(cfg, events + [e]) == Step(cfg, Run(cfg, events), e)
    ensures AlwaysHonoured(cfg, events + [e]) <==> AlwaysHonoured(cfg, events) && Honoured(cfg, Run(cfg, events + [e]))
  {
    var all := events + [e];
    assert all[..|events|] == events && all[..|all|] == all;
    assert forall k :: 0 <= k <= |events| ==> all[..k] == events[..k];
  }

  /**
   The history sets `lost` and `rolledBack` record the first moment at which a
   stored token is not honoured; `SessionRaces` says which events bring it about.
   */
  lemma {:induction false} HonouredUntilRecorded(cfg: Config, events: seq<Event>)
    requires Sound(cfg.cipher)
    ensures AlwaysHonoured(cfg, events) <==> Undisturbed(Run(cfg, events))
  {
    RunSafe(cfg, events);
    if events != [] {
      var init, e := events[..|events| - 1], events[|events| - 1];
      assert events == init + [e];
      HonouredUntilRecorded(cfg, init);
      RunSafe(cfg, init);
      AlwaysSnoc(cfg, init, e);
      DisturbedStays(cfg, Run(cfg, init), e);
      if Undisturbed(Run(cfg, events)) {
        SafeIsHonoured(cfg, Run(cfg, events));
      } else if Undisturbed(Run(cfg, init)) {
        DisturbanceShows(cfg, Run(cfg, init), e);
      }
    }
  }

  /** On any store, no refresh presents a spent token before the first disturbance. */
  lemma NoSelfLogout(cfg: Config, events: seq<Event>)
    requires Sound(cfg.cipher) && Undisturbed(Run(cfg, events))
    ensures Run(cfg, events).refused == {}
    ensures forall sid :: sid in Run(cfg, events).store ==>
              sid in Run(cfg, events).profiles && Run(cfg, events).store[sid].profile == Run(cfg, events).profiles[sid]
  {
    RunSafe(cfg, events);
    assert SessionOk(cfg, Run(cfg, events), "");
    forall sid | sid in Run(cfg, events).store
      ensures sid in Run(cfg, events).profiles && Run(cfg, events).store[sid].profile == Run(cfg, events).profiles[sid]
    {
      assert SessionOk(cfg, Run(cfg, events), sid);
    }
  }

  /**
   A refresh that is granted and stored renews the session: the new tokens under
   encryption, the old refresh token if none was issued, the window from the
   moment of the exchange, and everything else as the flight read it.
   */
  lemma RefreshRenews(cfg: Config, w: World, sid: string, tokens: TokenSet, expiresInMs: int, iv: nat)
    requires Sound(cfg.cipher)
    requires sid in w.inFlight && w.inFlight[sid].Exchanging? && sid in w.idp && w.idp[sid] == w.inFlight[sid].refreshToken
    ensures var r := Step(cfg, Step(cfg, w, FlightExchanges(sid, Granted(tokens, expiresInMs), iv)), FlightWrites(sid, true));
            && r.inFlight[sid] == Settled(Refreshed(tokens.accessToken))
            && sid in r.store && r.store[sid].profile == w.inFlight[sid].session.profile
            && cfg.cipher.open(r.store[sid].enc.accessToken) == Some(tokens.accessToken)
            && Open(cfg.cipher, r.store[sid].enc.refreshToken)
               == (if tokens.refreshToken.Some? then tokens.refreshToken else Some(w.inFlight[sid].refreshToken))
            && Open(cfg.cipher, r.store[sid].enc.idToken) == tokens.idToken
            && r.store[sid].accessTokenExpiresAt == w.now + expiresInMs
            && r.store[sid].sessionExpiresAt == w.now + cfg.sessionTtlMs
            && forall x :: x != sid ==> (x in r.store <==> x in w.store) && (x in w.store ==> r.store[x] == w.store[x])
  {
    var f := w.inFlight[sid];
    var kept := if tokens.refreshToken.Some? then tokens.refreshToken else Some(f.refreshToken);
    assert cfg.cipher.open(cfg.cipher.seal(iv, tokens.accessToken)) == Some(tokens.accessToken);
    assert cfg.cipher.open(cfg.cipher.seal(iv + 1, kept.value)) == kept;
    if tokens.idToken.Some? {
      assert cfg.cipher.open(cfg.cipher.seal(iv + 2, tokens.idToken.value)) == tokens.idToken;
    }
  }

  /** A slide by `touch` moves the window to a whole TTL after its call, however late it lands. */
  lemma TouchSlides(cfg: Config, w: World, id: nat, sid: string, late: nat)
    requires cfg.hasTouch && id !in w.slides && sid in w.store
    ensures var r := Step(cfg, Step(cfg, Step(cfg, w, CallSlide(id, sid)), Elapse(late)), SlideWrite(id));
            && r.store == w.store[sid := w.store[sid].(sessionExpiresAt := w.now + cfg.sessionTtlMs)]
            && r.slides == w.slides
  {
    assert w.slides[id := Slide(sid, w.now + cfg.sessionTtlMs, None)] - {id} == w.slides;
  }

  /**
   A slide of the fallback that nothing comes between moves the window to a whole
   TTL after its call too, and ends without a trace on a session that is gone.
   */
  lemma FallbackSlides(cfg: Config, w: World, id: nat, sid: string, early: nat, late: nat)
    requires !cfg.hasTouch && id !in w.slides
    ensures var read := Step(cfg, Step(cfg, Step(cfg, w, CallSlide(id, sid)), Elapse(early)), SlideRead(id));
            var r := Step(cfg, Step(cfg, read, Elapse(late)), SlideWrite(id));
            && r.store == (if sid in w.store then w.store[sid := w.store[sid].(sessionExpiresAt := w.now + cfg.sessionTtlMs)] else w.store)
            && r.slides == w.slides
  {
    var read := Step(cfg, Step(cfg, Step(cfg, w, CallSlide(id, sid)), Elapse(early)), SlideRead(id));
    FallbackReads(cfg, w, id, sid, early);
    if sid in w.store {
      FallbackLands(cfg, Step(cfg, read, Elapse(late)), id);
    }
  }

  lemma FallbackReads(cfg: Config, w: World, id: nat, sid: string, early: nat)
    requires !cfg.hasTouch && id !in w.slides
    ensures var read := Step(cfg, Step(cfg, Step(cfg, w, CallSlide(id, sid)), Elapse(early)), SlideRead(id));
            var s := Slide(sid, w.now + cfg.sessionTtlMs, if sid in w.store then Some(w.store[sid]) else None);
            read == w.(now := w.now + early, slides := if sid in w.store then w.slides[id := s] else w.slides)
  {
    var s := Slide(sid, w.now + cfg.sessionTtlMs, None);
    assert w.slides[id := s] - {id} == w.slides;
    if sid in w.store {
      assert w.slides[id := s][id := s.(reread := Some(w.store[sid]))] == w.slides[id := s.(reread := Some(w.store[sid]))];
    }
  }

  lemma FallbackLands(cfg: Config, w: World, id: nat)
    requires !cfg.hasTouch && id in w.slides && w.slides[id].reread.Some?
    ensures var s, r := w.slides[id], Step(cfg, w, SlideWrite(id));
            && r.store == w.store[s.sid := s.reread.value.(sessionExpiresAt := s.sessionExpiresAt)]
            && r.slides == w.slides - {id}
  {
  }

  /** A login stores its tokens under encryption, with both expiries counted from now, and touches no other session. */
  lemma LoginStores(cfg: Config, w: World, sid: string, profile: string, tokens: TokenSet, expiresInMs: int, iv: nat)
    requires Sound(cfg.cipher) && sid !in w.profiles
    ensures var r := Step(cfg, w, Login(sid, profile, tokens, expiresInMs, iv));
            && sid in r.store && r.store[sid].profile == profile
            && cfg.cipher.open(r.store[sid].enc.accessToken) == Some(tokens.accessToken)
            && Open(cfg.cipher, r.store[sid].enc.refreshToken) == tokens.refreshToken
            && Open(cfg.cipher, r.store[sid].enc.idToken) == tokens.idToken
            && r.store[sid].accessTokenExpiresAt == w.now + expiresInMs
            && r.store[sid].sessionExpiresAt == w.now + cfg.sessionTtlMs
            && r.store - {sid} == w.store - {sid}
  {
    assert cfg.cipher.open(cfg.cipher.seal(iv, tokens.accessToken)) == Some(tokens.accessToken);
    if tokens.refreshToken.Some? {
      assert cfg.cipher.open(cfg.cipher.seal(iv + 1, tokens.refreshToken.value)) == tokens.refreshToken;
    }
    if tokens.idToken.Some? {
      assert cfg.cipher.open(cfg.cipher.seal(iv + 2, tokens.idToken.value)) == tokens.idToken;
    }
  }

  predicate IsSlideEvent(e: Event) {
    e.CallSlide? || e.SlideRead? || e.SlideWrite? || e.SlideFails?
  }

  // ---------- the fallback's race ----------

  function Fallback(c: Cipher): Config {
    Config(false, 1000, c)
  }

  const FIRST := TokenSet("a0", Some("r0"), None)
  const SECOND := TokenSet("a1", Some("r1"), None)

  function Login0(c: Cipher): SessionData {
    SessionData("u", Seal(c, 0, FIRST), 60, 1000)
  }

  function Rotated(c: Cipher): SessionData {
    SessionData("u", Seal(c, 3, SECOND), 60, 1000)
  }

  const PRELUDE := [Login("s", "u", FIRST, 60, 0), CallRefresh("s"), FlightReads("s"), CallSlide(0, "s"), SlideRead(0)]

  function Poised(c: Cipher): World {
    EMPTY.(store := map["s" := Login0(c)], idp := map["s" := "r0"], profiles := map["s" := "u"],
           inFlight := map["s" := Exchanging(Login0(c), "r0")], slides := map[0 := Slide("s", 1000, Some(Login0(c)))])
  }

  lemma RunSnoc(cfg: Config, front: seq<Event>, e: Event)
    ensures Run(cfg, front + [e]) == Step(cfg, Run(cfg, front), e)
  {
    assert (front + [e])[..|front|] == front;
  }

  lemma TwoSteps(cfg: Config, front: seq<Event>, a: Event, b: Event)
    ensures Run(cfg, front + [a, b]) == Step(cfg, Step(cfg, Run(cfg, front), a), b)
  {
    var x := front + [a];
    assert front + [a, b] == x + [b];
    assert Run(cfg, x) == Step(cfg, Run(cfg, front), a) by { RunSnoc(cfg, front, a); }
    assert Run(cfg, x + [b]) == Step(cfg, Run(cfg, x), b) by { RunSnoc(cfg, x, b); }
  }

  lemma FiveSteps(cfg: Config, front: seq<Event>, a: Event, b: Event, c: Event, d: Event, e: Event)
    ensures Run(cfg, front + [a, b, c, d, e])
         == Step(cfg, Step(cfg, Step(cfg, Step(cfg, Step(cfg, Run(cfg, front), a), b), c), d), e)
  {
    TwoSteps(cfg, front, a, b);
    TwoSteps(cfg, front + [a, b], c, d);
    RunSnoc(cfg, front + [a, b] + [c, d], e);
    assert front + [a, b] + [c, d] + [e] == front + [a, b, c, d, e];
  }

  function LoggedIn(c: Cipher): World {
    Poised(c).(inFlight := map[], slides := map[])
  }

  lemma LogsIn(c: Cipher)
    ensures Step(Fallback(c), EMPTY, PRELUDE[0]) == LoggedIn(c)
  {
  }

  lemma FlightHasRead(c: Cipher)
    requires Sound(c)
    ensures Step(Fallback(c), Step(Fallback(c), LoggedIn(c), PRELUDE[1]), PRELUDE[2]) == Poised(c).(slides := map[])
  {
    assert c.open(c.seal(1, "r0")) == Some("r0");
  }

  lemma SlideHasRead(c: Cipher)
    ensures Step(Fallback(c), Step(Fallback(c), Poised(c).(slides := map[]), PRELUDE[3]), PRELUDE[4]) == Poised(c)
  {
  }

  lemma Poises(c: Cipher)
    requires Sound(c)
    ensures Run(Fallback(c), PRELUDE) == Poised(c)
  {
    FiveSteps(Fallback(c), [], PRELUDE[0], PRELUDE[1], PRELUDE[2], PRELUDE[3], PRELUDE[4]);
    assert [] + [PRELUDE[0], PRELUDE[1], PRELUDE[2], PRELUDE[3], PRELUDE[4]] == PRELUDE;
    LogsIn(c);
    FlightHasRead(c);
    SlideHasRead(c);
  }

  lemma Rotates(c: Cipher)
    ensures Step(Fallback(c), Step(Fallback(c), Step(Fallback(c), Poised(c), FlightExchanges("s", Granted(SECOND, 60), 3)),
                                   FlightWrites("s", true)), FlightClears("s"))
         == Poised(c).(store := map["s" := Rotated(c)], idp := map["s" := "r1"], inFlight := map[])
  {
  }

  function RolledBack(c: Cipher): World {
    EMPTY.(store := map["s" := Login0(c)], idp := map["s" := "r1"], profiles := map["s" := "u"],
           inFlight := map["s" := Getting], rolledBack := {"s"})
  }

  lemma RollsBack(c: Cipher)
    requires Sound(c)
    ensures var t := Poised(c).(store := map["s" := Rotated(c)], idp := map["s" := "r1"], inFlight := map[]);
            Step(Fallback(c), Step(Fallback(c), t, SlideWrite(0)), CallRefresh("s")) == RolledBack(c)
  {
    assert c.open(c.seal(1, "r0")) == Some("r0");
  }

  lemma RolledBackIsRefused(c: Cipher)
    requires Sound(c)
    ensures Step(Fallback(c), Step(Fallback(c), RolledBack(c), FlightReads("s")), FlightExchanges("s", Granted(SECOND, 60), 6))
              .inFlight == map["s" := Settled(Failed(true))]
  {
    assert c.open(c.seal(1, "r0")) == Some("r0");
  }

  const RACE := [FlightExchanges("s", Granted(SECOND, 60), 3), FlightWrites("s", true), FlightClears("s"),
                 SlideWrite(0), CallRefresh("s")]

  /**
   Without `touch`: a slide reads, a refresh rotates and stores, the slide
   writes back what it read. The next refresh presents a spent token and ends
   the session.
   */
  lemma FallbackRollsBack(c: Cipher)
    requires Sound(c)
    ensures var after := Run(Fallback(c), PRELUDE + RACE);
            && after.rolledBack == {"s"}
            && Step(Fallback(c), Step(Fallback(c), after, FlightReads("s")), FlightExchanges("s", Granted(SECOND, 60), 6))
                 .inFlight == map["s" := Settled(Failed(true))]
  {
    Poises(c);
    FiveSteps(Fallback(c), PRELUDE, RACE[0], RACE[1], RACE[2], RACE[3], RACE[4]);
    assert PRELUDE + [RACE[0], RACE[1], RACE[2], RACE[3], RACE[4]] == PRELUDE + RACE;
    Rotates(c);
    RollsBack(c);
    RolledBackIsRefused(c);
  }

  /** A slide that read before a deletion and writes after it. */
  const LATE_SLIDE := [Login("s", "u", FIRST, 60, 0), CallSlide(0, "s"), SlideRead(0), Delete("s"), SlideWrite(0)]

  /** Without `touch`: the session is deleted between the slide's read and its write, and is back. */
  lemma FallbackResurrects(c: Cipher)
    ensures Run(Fallback(c), LATE_SLIDE[..4]).store == map[]
    ensures Run(Fallback(c), LATE_SLIDE).store == map["s" := Login0(c)]
  {
    var cfg := Fallback(c);
    FiveSteps(cfg, [], LATE_SLIDE[0], LATE_SLIDE[1], LATE_SLIDE[2], LATE_SLIDE[3], LATE_SLIDE[4]);
    assert [] + [LATE_SLIDE[0], LATE_SLIDE[1], LATE_SLIDE[2], LATE_SLIDE[3], LATE_SLIDE[4]] == LATE_SLIDE;
    TwoSteps(cfg, [], LATE_SLIDE[0], LATE_SLIDE[1]);
    TwoSteps(cfg, [LATE_SLIDE[0], LATE_SLIDE[1]], LATE_SLIDE[2], LATE_SLIDE[3]);
    assert [] + [LATE_SLIDE[0], LATE_SLIDE[1]] == [LATE_SLIDE[0], LATE_SLIDE[1]];
    assert [LATE_SLIDE[0], LATE_SLIDE[1]] + [LATE_SLIDE[2], LATE_SLIDE[3]] == LATE_SLIDE[..4];
    LateSlide(c);
  }

  lemma LateSlide(c: Cipher)
    ensures var w := Step(Fallback(c), Step(Fallback(c), Step(Fallback(c), Step(Fallback(c), EMPTY, LATE_SLIDE[0]), LATE_SLIDE[1]),
                                            LATE_SLIDE[2]), LATE_SLIDE[3]);
            w.store == map[] && Step(Fallback(c), w, LATE_SLIDE[4]).store == map["s" := Login0(c)]
  {
    LogsIn(c);
  }
}
