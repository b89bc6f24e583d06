/**
 `RefreshManager`, `slideSessionWindow` and the store they share, with the
 fields they update in place. Every method is tied to the function of the same
 meaning in `Sessions`, so the theorems about runs hold of the object (`Live`).
 */
module SessionServers {
  import opened Wrappers
  import Model = Sessions

  class SessionServer {
    const cfg: Model.Config
    var now: int
    var store: map<string, Model.SessionData>
    var inFlight: map<string, Model.Flight>
    var slides: map<nat, Model.Slide>
    var idp: map<string, string>
    var profiles: map<string, string>
    ghost var lost: set<string>
    ghost var rolledBack: set<string>
    ghost var refused: set<string>

    ghost function Value(): Model.World
      reads this
    {
      Model.World(now, store, inFlight, slides, idp, profiles, lost, rolledBack, refused)
    }

    constructor (cfg: Model.Config)
      ensures Value() == Model.EMPTY && this.cfg == cfg
    {
      this.cfg := cfg;
      now, store, inFlight, slides, idp, profiles := 0, map[], map[], map[], map[], map[];
      lost, rolledBack, refused := {}, {}, {};
    }

    /** One flight a session: a caller joins the one in the map, whatever it still waits for. */
    method Refresh(sid: string) returns (joined: bool)
      modifies this
      ensures Value() == Model.Refresh(old(Value()), sid)
      ensures joined <==> sid in old(inFlight)
      ensures joined ==> inFlight == old(inFlight)
    {
      joined := sid in inFlight;
      if !joined {
        inFlight := inFlight[sid := Model.Getting];
      }
    }

    method FlightReads(sid: string)
      modifies this
      ensures Value() == Model.Step(cfg, old(Value()), Model.FlightReads(sid))
    {
      if sid !in inFlight || !inFlight[sid].Getting? {
        return;
      }
      var next := Model.Settled(Model.Failed(true));
      if sid in store && store[sid].enc.refreshToken.Some? {
        var plain := cfg.cipher.open(store[sid].enc.refreshToken.value);
        if plain.Some? {
          next := Model.Exchanging(store[sid], plain.value);
        }
      }
      inFlight := inFlight[sid := next];
    }

    method FlightReadFails(sid: string)
      modifies this
      ensures Value() == Model.Step(cfg, old(Value()), Model.FlightReadFails(sid))
    {
      if sid in inFlight && inFlight[sid].Getting? {
        Finish(sid, Model.Threw);
      }
    }

    method Finish(sid: string, result: Model.RefreshResult)
      modifies this
      ensures Value() == Model.Settle(old(Value()), sid, result)
    {
      inFlight := inFlight[sid := Model.Settled(result)];
    }

    /** The provider's own state. */
    method Rotate(sid: string, next: Option<string>)
      modifies this
      ensures Value() == Model.Rotate(old(Value()), sid, next)
    {
      if next.Some? {
        idp := idp[sid := next.value];
      }
    }

    method FlightExchanges(sid: string, reply: Model.Reply, iv: nat)
      modifies this
      ensures Value() == Model.Exchange(cfg, old(Value()), sid, reply, iv)
    {
      if sid !in inFlight || !inFlight[sid].Exchanging? {
        return;
      }
      var session, held := inFlight[sid].session, inFlight[sid].refreshToken;
      if reply.Status? {
        Finish(sid, Model.Failed(400 <= reply.code < 500));
        return;
      }
      if sid !in idp || idp[sid] != held {
        refused := refused + {sid};
        Finish(sid, Model.Failed(true));
        return;
      }
      match reply {
        case Dropped(next) =>
          Rotate(sid, next);
          Finish(sid, Model.Failed(false));
          if sid in store && next.Some? && next.value != held {
            lost := lost + {sid};
          }
        case Granted(tokens, expiresInMs) =>
          var kept := if tokens.refreshToken.Some? then tokens.refreshToken else Some(held);
          Rotate(sid, tokens.refreshToken);
          var updated := session.(enc := Model.Seal(cfg.cipher, iv, tokens.(refreshToken := kept)),
                                  accessTokenExpiresAt := now + expiresInMs,
                                  sessionExpiresAt := now + cfg.sessionTtlMs);
          inFlight := inFlight[sid := Model.Writing(updated, tokens.accessToken)];
      }
    }

    method FlightWrites(sid: string, ok: bool)
      modifies this
      ensures Value() == Model.Write(cfg, old(Value()), sid, ok)
    {
      if sid !in inFlight || !inFlight[sid].Writing? {
        return;
      }
      if ok {
        store := store[sid := inFlight[sid].updated];
        Finish(sid, Model.Refreshed(inFlight[sid].accessToken));
      } else {
        if sid in store && Model.Spent(cfg, Value(), sid, store[sid]) {
          lost := lost + {sid};
        }
        Finish(sid, Model.Failed(false));
      }
    }

    /** The `finally` of the flight. */
    method FlightClears(sid: string)
      modifies this
      ensures Value() == Model.Step(cfg, old(Value()), Model.FlightClears(sid))
    {
      if sid in inFlight && inFlight[sid].Settled? {
        inFlight := inFlight - {sid};
      }
    }

    /** `slideSessionWindow` up to its first await: the new expiry is fixed here. */
    method CallSlide(id: nat, sid: string)
      modifies this
      ensures Value() == Model.BeginSlide(cfg, old(Value()), id, sid)
    {
      if id !in slides {
        slides := slides[id := Model.Slide(sid, now + cfg.sessionTtlMs, None)];
      }
    }

    method SlideRead(id: nat)
      modifies this
      ensures Value() == Model.SlideReads(cfg, old(Value()), id)
    {
      if cfg.hasTouch || id !in slides || slides[id].reread.Some? {
        return;
      }
      var s := slides[id];
      if s.sid !in store {
        slides := slides - {id};
        return;
      }
      slides := slides[id := s.(reread := Some(store[s.sid]))];
    }

    method SlideWrite(id: nat)
      modifies this
      ensures Value() == Model.SlideLands(cfg, old(Value()), id)
    {
      if id !in slides || (!cfg.hasTouch && slides[id].reread.None?) {
        return;
      }
      var s := slides[id];
      slides := slides - {id};
      if cfg.hasTouch {
        if s.sid in store {
          store := store[s.sid := store[s.sid].(sessionExpiresAt := s.sessionExpiresAt)];
        }
      } else {
        if Model.Spent(cfg, Value(), s.sid, s.reread.value) && !Model.IsWriting(Value(), s.sid) {
          rolledBack := rolledBack + {s.sid};
        }
        store := store[s.sid := s.reread.value.(sessionExpiresAt := s.sessionExpiresAt)];
      }
    }

    method Begin(sid: string, profile: string, tokens: Model.TokenSet, expiresInMs: int, iv: nat)
      modifies this
      ensures Value() == Model.Begin(cfg, old(Value()), sid, profile, tokens, expiresInMs, iv)
    {
      if sid in profiles {
        return;
      }
      Rotate(sid, tokens.refreshToken);
      store := store[sid := Model.SessionData(profile, Model.Seal(cfg.cipher, iv, tokens), now + expiresInMs, now + cfg.sessionTtlMs)];
      profiles := profiles[sid := profile];
    }

    method Turn(e: Model.Event)
      modifies this
      ensures Value() == Model.Step(cfg, old(Value()), e)
    {
      match e {
        case Elapse(ms) => now := now + ms;
        case Login(sid, profile, tokens, expiresInMs, iv) => Begin(sid, profile, tokens, expiresInMs, iv);
        case Delete(sid) => store := store - {sid};
        case CallRefresh(sid) => var _ := Refresh(sid);
        case FlightReads(sid) => FlightReads(sid);
        case FlightReadFails(sid) => FlightReadFails(sid);
        case FlightExchanges(sid, reply, iv) => FlightExchanges(sid, reply, iv);
        case FlightWrites(sid, ok) => FlightWrites(sid, ok);
        case FlightClears(sid) => FlightClears(sid);
        case CallSlide(id, sid) => CallSlide(id, sid);
        case SlideRead(id) => SlideRead(id);
        case SlideWrite(id) => SlideWrite(id);
        case SlideFails(id) => slides := slides - {id};
      }
    }
  }

  /** A server from its first request on. */
  method Live(cfg: Model.Config, events: seq<Model.Event>) returns (s: SessionServer)
    ensures fresh(s) && s.Value() == Model.Run(cfg, events)
  {
    s := new SessionServer(cfg);
    var i := 0;
    while i < |events|
      invariant 0 <= i <= |events|
      invariant fresh(s) && s.cfg == cfg && s.Value() == Model.Run(cfg, events[..i])
    {
      assert events[..i + 1][..i] == events[..i];
      s.Turn(events[i]);
      i := i + 1;
    }
    assert events[..i] == events;
  }
}
