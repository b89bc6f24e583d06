/**
 One server's stored sessions under concurrent use: lazy refreshes with their
 per-session single flight, and slides of the session window, against an
 identity provider that kills a refresh token when it issues the next one.

 `store` operations and the exchange take effect at one moment each; what comes
 before and after it in an `async` function are separate steps.
 */
module Sessions {
  import opened Wrappers

  /** The token cipher: `seal` takes its nonce, `open` may fail. */
  datatype Cipher = Cipher(seal: (nat, string) -> string, open: string -> Option<string>)

  ghost predicate Sound(c: Cipher) {
    forall iv: nat, p: string :: c.open(c.seal(iv, p)) == Some(p)
  }

  datatype Config = Config(hasTouch: bool, sessionTtlMs: int, cipher: Cipher)

  datatype TokenSet = TokenSet(accessToken: string, refreshToken: Option<string>, idToken: Option<string>)

  /** `profile` stands for sub, user, csrfToken and createdAt; `enc` is ciphertext. */
  datatype SessionData = SessionData(profile: string, enc: TokenSet, accessTokenExpiresAt: int, sessionExpiresAt: int)

  /** `Threw`: the store's read rejected, and so does the promise. */
  datatype RefreshResult = Refreshed(accessToken: string) | Failed(terminal: bool) | Threw

  /** Where `doRefresh` stands. */
  datatype Flight =
    | Getting
    | Exchanging(session: SessionData, refreshToken: string)
    | Writing(updated: SessionData, accessToken: string)
    | Settled(result: RefreshResult)     // before the `finally` that clears it

  /** A suspended `slideSessionWindow`; `reread` is what the fallback's own read found. */
  datatype Slide = Slide(sid: string, sessionExpiresAt: int, reread: Option<SessionData>)

  datatype World = World(
    now: int,
    store: map<string, SessionData>,
    inFlight: map<string, Flight>,
    slides: map<nat, Slide>,
    idp: map<string, string>,            // the refresh token the provider honours, by session
    // History, read by no operation:
    profiles: map<string, string>,       // as of login
    lost: set<string>,                   // a rotated token did not reach the stored session
    rolledBack: set<string>,             // a slide stored a token already spent
    refused: set<string>)                // a refresh presented a token already spent

  const EMPTY := World(0, map[], map[], map[], map[], map[], {}, {}, {})

  /**
   What the provider answers to a token it honours: `Dropped` rotates, but the
   answer is lost; `Status` is an error, 0 standing for a request that got none.
   */
  datatype Reply =
    | Granted(tokens: TokenSet, expiresInMs: int)
    | Dropped(refreshToken: Option<string>)
    | Status(code: int)

  function Seal(c: Cipher, iv: nat, t: TokenSet): TokenSet {
    TokenSet(c.seal(iv, t.accessToken),
             if t.refreshToken.Some? then Some(c.seal(iv + 1, t.refreshToken.value)) else None,
             if t.idToken.Some? then Some(c.seal(iv + 2, t.idToken.value)) else None)
  }

  function Open(c: Cipher, t: Option<string>): Option<string> {
    if t.None? then None else c.open(t.value)
  }

  // ---------- RefreshManager ----------

  /** `refresh(sid)`: join the flight of that session, or begin one. */
  function Refresh(w: World, sid: string): World {
    if sid in w.inFlight then w else w.(inFlight := w.inFlight[sid := Getting])
  }

  function Reads(cfg: Config, w: World, sid: string): Flight {
    if sid !in w.store then Settled(Failed(true))
    else if w.store[sid].enc.refreshToken.None? then Settled(Failed(true))
    else match cfg.cipher.open(w.store[sid].enc.refreshToken.value)
      case None => Settled(Failed(true))
      case Some(token) => Exchanging(w.store[sid], token)
  }

  function TerminalStatus(code: int): bool {
    400 <= code < 500
  }

  /** The record `doRefresh` writes; without a rotated token it keeps the old one. */
  function Updated(cfg: Config, w: World, f: Flight, tokens: TokenSet, expiresInMs: int, iv: nat): SessionData
    requires f.Exchanging?
  {
    var kept := if tokens.refreshToken.Some? then tokens.refreshToken else Some(f.refreshToken);
    f.session.(enc := Seal(cfg.cipher, iv, tokens.(refreshToken := kept)),
               accessTokenExpiresAt := w.now + expiresInMs,
               sessionExpiresAt := w.now + cfg.sessionTtlMs)
  }

  /** The provider's side of a rotation. */
  function Rotate(w: World, sid: string, next: Option<string>): World {
    if next.Some? then w.(idp := w.idp[sid := next.value]) else w
  }

  function Settle(w: World, sid: string, result: RefreshResult): World {
    w.(inFlight := w.inFlight[sid := Settled(result)])
  }

  /** The provider rotated, and its answer never arrived. */
  function LoseAnswer(w: World, sid: string, held: string, next: Option<string>): World {
    var t := Settle(Rotate(w, sid, next), sid, Failed(false));
    if sid in w.store && next.Some? && next.value != held then t.(lost := t.lost + {sid}) else t
  }

  function Grant(cfg: Config, w: World, sid: string, f: Flight, tokens: TokenSet, expiresInMs: int, iv: nat): World
    requires f.Exchanging?
  {
    Rotate(w, sid, tokens.refreshToken)
      .(inFlight := w.inFlight[sid := Writing(Updated(cfg, w, f, tokens, expiresInMs, iv), tokens.accessToken)])
  }

  /** The token endpoint answers; a spent token is refused whatever it would have said otherwise. */
  function Exchange(cfg: Config, w: World, sid: string, reply: Reply, iv: nat): World {
    if sid !in w.inFlight || !w.inFlight[sid].Exchanging? then w
    else
      var f := w.inFlight[sid];
      if reply.Status? then Settle(w, sid, Failed(TerminalStatus(reply.code)))
      else if sid !in w.idp || w.idp[sid] != f.refreshToken then
        Settle(w.(refused := w.refused + {sid}), sid, Failed(true))
      else match reply
        case Dropped(next) => LoseAnswer(w, sid, f.refreshToken, next)
        case Granted(tokens, expiresInMs) => Grant(cfg, w, sid, f, tokens, expiresInMs, iv)
  }

  function Spent(cfg: Config, w: World, sid: string, data: SessionData): bool {
    sid in w.idp && Open(cfg.cipher, data.enc.refreshToken) != Some(w.idp[sid])
  }

  /** The write lands or is rejected; a rejected one reads as a transient failure. */
  function Write(cfg: Config, w: World, sid: string, ok: bool): World {
    if sid !in w.inFlight || !w.inFlight[sid].Writing? then w
    else
      var f := w.inFlight[sid];
      if ok then Settle(w.(store := w.store[sid := f.updated]), sid, Refreshed(f.accessToken))
      else
        var t := Settle(w, sid, Failed(false));
        if sid in w.store && Spent(cfg, w, sid, w.store[sid]) then t.(lost := t.lost + {sid}) else t
  }

  predicate IsWriting(w: World, sid: string) {
    sid in w.inFlight && w.inFlight[sid].Writing?
  }

  // ---------- slideSessionWindow ----------

  function BeginSlide(cfg: Config, w: World, id: nat, sid: string): World {
    if id in w.slides then w else w.(slides := w.slides[id := Slide(sid, w.now + cfg.sessionTtlMs, None)])
  }

  /** The fallback's fresh read; a vanished session ends the slide. */
  function SlideReads(cfg: Config, w: World, id: nat): World {
    if cfg.hasTouch || id !in w.slides || w.slides[id].reread.Some? then w
    else if w.slides[id].sid !in w.store then w.(slides := w.slides - {id})
    else w.(slides := w.slides[id := w.slides[id].(reread := Some(w.store[w.slides[id].sid]))])
  }

  /** `touch` lands: expiry only, and nothing for an absent session. */
  function Touch(w: World, sid: string, sessionExpiresAt: int): World {
    if sid !in w.store then w
    else w.(store := w.store[sid := w.store[sid].(sessionExpiresAt := sessionExpiresAt)])
  }

  /** The fallback's write of what it read, whatever has been stored since. */
  function Overwrite(cfg: Config, w: World, s: Slide): World
    requires s.reread.Some?
  {
    var t := w.(store := w.store[s.sid := s.reread.value.(sessionExpiresAt := s.sessionExpiresAt)]);
    if Spent(cfg, w, s.sid, s.reread.value) && !IsWriting(w, s.sid) then t.(rolledBack := t.rolledBack + {s.sid}) else t
  }

  /** The slide's write. */
  function SlideLands(cfg: Config, w: World, id: nat): World {
    if id !in w.slides then w
    else
      var t := w.(slides := w.slides - {id});
      if cfg.hasTouch then Touch(t, w.slides[id].sid, w.slides[id].sessionExpiresAt)
      else if w.slides[id].reread.None? then w
      else Overwrite(cfg, t, w.slides[id])
  }

  // ---------- runs ----------

  datatype Event =
    | Elapse(ms: nat)
    | Login(sid: string, profile: string, tokens: TokenSet, expiresInMs: int, iv: nat)
    | Delete(sid: string)                 // logout, revocation or expiry
    | CallRefresh(sid: string)
    | FlightReads(sid: string)
    | FlightReadFails(sid: string)
    | FlightExchanges(sid: string, reply: Reply, iv: nat)
    | FlightWrites(sid: string, ok: bool)
    | FlightClears(sid: string)
    | CallSlide(id: nat, sid: string)
    | SlideRead(id: nat)
    | SlideWrite(id: nat)
    | SlideFails(id: nat)

  /** A login mints a session id that was never used. */
  function Begin(cfg: Config, w: World, sid: string, profile: string, tokens: TokenSet, expiresInMs: int, iv: nat): World {
    if sid in w.profiles then w
    else
      var data := SessionData(profile, Seal(cfg.cipher, iv, tokens), w.now + expiresInMs, w.now + cfg.sessionTtlMs);
      Rotate(w, sid, tokens.refreshToken).(store := w.store[sid := data], profiles := w.profiles[sid := profile])
  }

  function Step(cfg: Config, w: World, e: Event): World {
    match e
    case Elapse(ms) => w.(now := w.now + ms)
    case Login(sid, profile, tokens, expiresInMs, iv) => Begin(cfg, w, sid, profile, tokens, expiresInMs, iv)
    case Delete(sid) => w.(store := w.store - {sid})
    case CallRefresh(sid) => Refresh(w, sid)
    case FlightReads(sid) =>
      if sid in w.inFlight && w.inFlight[sid].Getting? then w.(inFlight := w.inFlight[sid := Reads(cfg, w, sid)]) else w
    case FlightReadFails(sid) =>
      if sid in w.inFlight && w.inFlight[sid].Getting? then Settle(w, sid, Threw) else w
    case FlightExchanges(sid, reply, iv) => Exchange(cfg, w, sid, reply, iv)
    case FlightWrites(sid, ok) => Write(cfg, w, sid, ok)
    case FlightClears(sid) =>
      if sid in w.inFlight && w.inFlight[sid].Settled? then w.(inFlight := w.inFlight - {sid}) else w
    case CallSlide(id, sid) => BeginSlide(cfg, w, id, sid)
    case SlideRead(id) => SlideReads(cfg, w, id)
    case SlideWrite(id) => SlideLands(cfg, w, id)
    case SlideFails(id) => w.(slides := w.slides - {id})
  }

  function Run(cfg: Config, events: seq<Event>): World {
    if events == [] then EMPTY
    else Step(cfg, Run(cfg, events[..|events| - 1]), events[|events| - 1])
  }

  // ---------- rotation safety ----------

  /** The stored refresh token of `sid` is the one the provider honours. */
  ghost predicate StoredIsHonoured(cfg: Config, w: World, sid: string) {
    sid in w.store ==>
      if sid in w.idp then !Spent(cfg, w, sid, w.store[sid]) else w.store[sid].enc.refreshToken.None?
  }

  /** No rotated token was lost and none was rolled back. */
  predicate Undisturbed(w: World) {
    w.lost == {} && w.rolledBack == {}
  }

  /** Everything stored or held by a flight belongs to the login of its session. */
  ghost predicate BelongsAt(w: World, sid: string) {
    && (sid in w.store ==> sid in w.profiles && w.store[sid].profile == w.profiles[sid])
    && (sid in w.idp ==> sid in w.profiles)
    && (sid in w.inFlight ==> match w.inFlight[sid]
          case Exchanging(data, _) => sid in w.profiles && data.profile == w.profiles[sid]
          case Writing(data, _) => sid in w.profiles && data.profile == w.profiles[sid]
          case _ => true)
  }

  /** A flight presents, and then writes, what the provider honours. */
  ghost predicate FlightOk(cfg: Config, w: World, sid: string) {
    sid in w.inFlight ==> match w.inFlight[sid]
      case Exchanging(_, token) => sid in w.idp && w.idp[sid] == token
      case Writing(data, _) => sid in w.idp && !Spent(cfg, w, sid, data)
      case _ => true
  }

  ghost predicate SlideBelongs(w: World, s: Slide) {
    s.reread.Some? ==> s.sid in w.profiles && s.reread.value.profile == w.profiles[s.sid]
  }

  ghost predicate SlideOk(w: World, s: Slide) {
    s.reread.Some? && s.sid !in w.idp ==> s.reread.value.enc.refreshToken.None?
  }

  ghost predicate HonouredAt(cfg: Config, w: World, sid: string) {
    (!IsWriting(w, sid) ==> StoredIsHonoured(cfg, w, sid)) && FlightOk(cfg, w, sid)
  }

  ghost predicate SessionOk(cfg: Config, w: World, sid: string) {
    BelongsAt(w, sid) && (Undisturbed(w) ==> HonouredAt(cfg, w, sid) && w.refused == {})
  }

  ghost predicate Safe(cfg: Config, w: World) {
    && (forall sid :: SessionOk(cfg, w, sid))
    && (forall id :: id in w.slides ==> SlideBelongs(w, w.slides[id]))
    && (Undisturbed(w) ==> forall id :: id in w.slides ==> SlideOk(w, w.slides[id]))
  }

  /** `r` is `w` as far as session `sid` goes. */
  ghost predicate SameAt(w: World, r: World, sid: string) {
    && (sid in r.store <==> sid in w.store) && (sid in w.store ==> r.store[sid] == w.store[sid])
    && (sid in r.inFlight <==> sid in w.inFlight) && (sid in w.inFlight ==> r.inFlight[sid] == w.inFlight[sid])
    && (sid in r.idp <==> sid in w.idp) && (sid in w.idp ==> r.idp[sid] == w.idp[sid])
  }

  ghost predicate Extends(w: World, r: World) {
    && (forall sid :: sid in w.profiles ==> sid in r.profiles && r.profiles[sid] == w.profiles[sid])
    && w.idp.Keys <= r.idp.Keys
    && (forall id :: id in r.slides ==> id in w.slides && r.slides[id] == w.slides[id])
    && (Undisturbed(r) ==> Undisturbed(w))
  }

  /** A step of one session leaves all others as safe as they were. */
  lemma OneSessionKeeps(cfg: Config, w: World, r: World, sid: string)
    requires Safe(cfg, w) && Extends(w, r) && SessionOk(cfg, r, sid)
    requires forall x :: x != sid ==> SameAt(w, r, x)
    ensures Safe(cfg, r)
  {
    forall x ensures SessionOk(cfg, r, x) {
      if x != sid {
        assert SameAt(w, r, x) && SessionOk(cfg, w, x);
      }
    }
  }

  lemma UpdatedHolds(cfg: Config, w: World, f: Flight, tokens: TokenSet, expiresInMs: int, iv: nat)
    requires Sound(cfg.cipher) && f.Exchanging?
    ensures Open(cfg.cipher, Updated(cfg, w, f, tokens, expiresInMs, iv).enc.refreshToken)
         == if tokens.refreshToken.Some? then tokens.refreshToken else Some(f.refreshToken)
    ensures Updated(cfg, w, f, tokens, expiresInMs, iv).profile == f.session.profile
  {
    var kept := if tokens.refreshToken.Some? then tokens.refreshToken else Some(f.refreshToken);
    assert cfg.cipher.open(cfg.cipher.seal(iv + 1, kept.value)) == kept;
  }

  lemma GrantKeeps(cfg: Config, w: World, sid: string, tokens: TokenSet, expiresInMs: int, iv: nat)
    requires Sound(cfg.cipher) && Safe(cfg, w)
    requires sid in w.inFlight && w.inFlight[sid].Exchanging? && sid in w.idp && w.idp[sid] == w.inFlight[sid].refreshToken
    ensures Safe(cfg, Grant(cfg, w, sid, w.inFlight[sid], tokens, expiresInMs, iv))
  {
    var f := w.inFlight[sid];
    var r := Grant(cfg, w, sid, f, tokens, expiresInMs, iv);
    assert SessionOk(cfg, w, sid);
    UpdatedHolds(cfg, w, f, tokens, expiresInMs, iv);
    assert SessionOk(cfg, r, sid);
    OneSessionKeeps(cfg, w, r, sid);
  }

  lemma LoseAnswerKeeps(cfg: Config, w: World, sid: string, next: Option<string>)
    requires Safe(cfg, w)
    requires sid in w.inFlight && w.inFlight[sid].Exchanging? && sid in w.idp && w.idp[sid] == w.inFlight[sid].refreshToken
    ensures Safe(cfg, LoseAnswer(w, sid, w.inFlight[sid].refreshToken, next))
  {
    var r := LoseAnswer(w, sid, w.inFlight[sid].refreshToken, next);
    assert SessionOk(cfg, w, sid);
    OneSessionKeeps(cfg, w, r, sid);
  }

  lemma ExchangeKeeps(cfg: Config, w: World, sid: string, reply: Reply, iv: nat)
    requires Sound(cfg.cipher) && Safe(cfg, w)
    ensures Safe(cfg, Exchange(cfg, w, sid, reply, iv))
  {
    if sid in w.inFlight && w.inFlight[sid].Exchanging? {
      assert SessionOk(cfg, w, sid);
      if reply.Status? || sid !in w.idp || w.idp[sid] != w.inFlight[sid].refreshToken {
        OneSessionKeeps(cfg, w, Exchange(cfg, w, sid, reply, iv), sid);
      } else if reply.Granted? {
        GrantKeeps(cfg, w, sid, reply.tokens, reply.expiresInMs, iv);
      } else {
        LoseAnswerKeeps(cfg, w, sid, reply.refreshToken);
      }
    }
  }

  lemma WriteKeeps(cfg: Config, w: World, sid: string, ok: bool)
    requires Safe(cfg, w)
    ensures Safe(cfg, Write(cfg, w, sid, ok))
  {
    assert SessionOk(cfg, w, sid);
    OneSessionKeeps(cfg, w, Write(cfg, w, sid, ok), sid);
  }

  lemma TouchKeeps(cfg: Config, w: World, sid: string, sessionExpiresAt: int)
    requires Safe(cfg, w)
    ensures Safe(cfg, Touch(w, sid, sessionExpiresAt))
  {
    assert SessionOk(cfg, w, sid);
    OneSessionKeeps(cfg, w, Touch(w, sid, sessionExpiresAt), sid);
  }

  lemma OverwriteKeeps(cfg: Config, w: World, s: Slide)
    requires Safe(cfg, w) && s.reread.Some? && SlideBelongs(w, s) && (Undisturbed(w) ==> SlideOk(w, s))
    ensures Safe(cfg, Overwrite(cfg, w, s))
  {
    assert SessionOk(cfg, w, s.sid);
    OneSessionKeeps(cfg, w, Overwrite(cfg, w, s), s.sid);
  }

  lemma SlideLandsKeeps(cfg: Config, w: World, id: nat)
    requires Safe(cfg, w)
    ensures Safe(cfg, SlideLands(cfg, w, id))
  {
    if id in w.slides {
      var t, s := w.(slides := w.slides - {id}), w.slides[id];
      forall x ensures SessionOk(cfg, t, x) {
        assert SessionOk(cfg, w, x);
      }
      if cfg.hasTouch {
        TouchKeeps(cfg, t, s.sid, s.sessionExpiresAt);
      } else if s.reread.Some? {
        OverwriteKeeps(cfg, t, s);
      }
    }
  }

  lemma SlideReadsKeeps(cfg: Config, w: World, id: nat)
    requires Safe(cfg, w)
    ensures Safe(cfg, SlideReads(cfg, w, id))
  {
    if id in w.slides {
      var r := SlideReads(cfg, w, id);
      assert SessionOk(cfg, w, w.slides[id].sid);
      forall x ensures SessionOk(cfg, r, x) {
        assert SessionOk(cfg, w, x);
      }
    }
  }

  lemma BeginKeeps(cfg: Config, w: World, sid: string, profile: string, tokens: TokenSet, expiresInMs: int, iv: nat)
    requires Sound(cfg.cipher) && Safe(cfg, w)
    ensures Safe(cfg, Begin(cfg, w, sid, profile, tokens, expiresInMs, iv))
  {
    hide SessionOk, SameAt, Extends;
    if sid !in w.profiles {
      assert SessionOk(cfg, w, sid);
      BeginIsOk(cfg, w, sid, profile, tokens, expiresInMs, iv);
      OneSessionKeeps(cfg, w, Begin(cfg, w, sid, profile, tokens, expiresInMs, iv), sid);
    }
  }

  lemma BeginIsOk(cfg: Config, w: World, sid: string, profile: string, tokens: TokenSet, expiresInMs: int, iv: nat)
    requires Sound(cfg.cipher) && SessionOk(cfg, w, sid) && sid !in w.profiles
    ensures var r := Begin(cfg, w, sid, profile, tokens, expiresInMs, iv);
            SessionOk(cfg, r, sid) && Extends(w, r) && forall x :: x != sid ==> SameAt(w, r, x)
  {
    if tokens.refreshToken.Some? {
      assert cfg.cipher.open(cfg.cipher.seal(iv + 1, tokens.refreshToken.value)) == tokens.refreshToken;
    }
  }

  lemma ReadKeeps(cfg: Config, w: World, sid: string)
    requires Safe(cfg, w)
    ensures Safe(cfg, Step(cfg, w, FlightReads(sid)))
  {
    assert SessionOk(cfg, w, sid);
    OneSessionKeeps(cfg, w, Step(cfg, w, FlightReads(sid)), sid);
  }

  lemma DeleteKeeps(cfg: Config, w: World, sid: string)
    requires Safe(cfg, w)
    ensures Safe(cfg, Step(cfg, w, Delete(sid)))
  {
    assert SessionOk(cfg, w, sid);
    OneSessionKeeps(cfg, w, w.(store := w.store - {sid}), sid);
  }

  lemma FlightKeeps(cfg: Config, w: World, sid: string, e: Event)
    requires Safe(cfg, w)
    requires e in {CallRefresh(sid), FlightReadFails(sid), FlightClears(sid)}
    ensures Safe(cfg, Step(cfg, w, e))
  {
    hide Step, SessionOk, SameAt, Extends;
    assert SessionOk(cfg, w, sid);
    FlightIsOk(cfg, w, sid, e);
    OneSessionKeeps(cfg, w, Step(cfg, w, e), sid);
  }

  lemma FlightIsOk(cfg: Config, w: World, sid: string, e: Event)
    requires SessionOk(cfg, w, sid)
    requires e in {CallRefresh(sid), FlightReadFails(sid), FlightClears(sid)}
    ensures var r := Step(cfg, w, e);
            SessionOk(cfg, r, sid) && Extends(w, r) && forall x :: x != sid ==> SameAt(w, r, x)
  {
  }

  /** Nothing stored, held or honoured changes. */
  lemma StillSafe(cfg: Config, w: World, r: World)
    requires Safe(cfg, w)
    requires r.store == w.store && r.inFlight == w.inFlight && r.idp == w.idp && r.profiles == w.profiles
    requires r.lost == w.lost && r.rolledBack == w.rolledBack && r.refused == w.refused
    requires forall id :: id in r.slides ==> (id in w.slides && r.slides[id] == w.slides[id]) || r.slides[id].reread.None?
    ensures Safe(cfg, r)
  {
    forall x ensures SessionOk(cfg, r, x) {
      assert SessionOk(cfg, w, x);
    }
  }

  lemma StepKeeps(cfg: Config, w: World, e: Event)
    requires Sound(cfg.cipher) && Safe(cfg, w)
    ensures Safe(cfg, Step(cfg, w, e))
  {
    match e
    case Login(sid, profile, tokens, expiresInMs, iv) => BeginKeeps(cfg, w, sid, profile, tokens, expiresInMs, iv);
    case Delete(sid) => DeleteKeeps(cfg, w, sid);
    case CallRefresh(sid) => FlightKeeps(cfg, w, sid, e);
    case FlightReads(sid) => ReadKeeps(cfg, w, sid);
    case FlightReadFails(sid) => FlightKeeps(cfg, w, sid, e);
    case FlightExchanges(sid, reply, iv) => ExchangeKeeps(cfg, w, sid, reply, iv);
    case FlightWrites(sid, ok) => WriteKeeps(cfg, w, sid, ok);
    case FlightClears(sid) => FlightKeeps(cfg, w, sid, e);
    case SlideRead(id) => SlideReadsKeeps(cfg, w, id);
    case SlideWrite(id) => SlideLandsKeeps(cfg, w, id);
    case _ => StillSafe(cfg, w, Step(cfg, w, e));
  }

  lemma {:induction false} RunSafe(cfg: Config, events: seq<Event>)
    requires Sound(cfg.cipher)
    ensures Safe(cfg, Run(cfg, events))
  {
    if events != [] {
      RunSafe(cfg, events[..|events| - 1]);
      StepKeeps(cfg, Run(cfg, events[..|events| - 1]), events[|events| - 1]);
    }
  }
}
