/**
 Two channels over one socket: one real listener per event type, and a listener
 registry for every channel and event type behind it.
 */
module SocketMultiplexers {
  import opened Wrappers
  import opened Channels
  import Registries = ListenerRegistries

  datatype EventType = Message | Opening | Closing | Failing

  function Index(c: Channel, t: EventType): (r: nat)
    ensures r < 8
  {
    (if c.C2S? then 0 else 4) + (match t case Message => 0 case Opening => 1 case Closing => 2 case Failing => 3)
  }

  /** Every channel and type has a registry of its own. */
  lemma IndexIsInjective(c: Channel, t: EventType, d: Channel, u: EventType)
    ensures Index(c, t) == Index(d, u) <==> c == d && t == u
  {
  }

  /** What a `message` listener is called with. */
  function Messages(frames: seq<Frame>): (r: seq<Registries.SocketEvent>)
    ensures |r| == |frames| && forall i :: 0 <= i < |frames| ==> r[i] == Registries.Data(frames[i])
  {
    if frames == [] then [] else Messages(frames[..|frames| - 1]) + [Registries.Data(frames[|frames| - 1])]
  }

  lemma MessagesSnoc(frames: seq<Frame>, f: Frame)
    ensures Messages(frames + [f]) == Messages(frames) + [Registries.Data(f)]
  {
  }

  lemma ReceivedSnoc(raws: seq<Inbound>, data: Inbound)
    ensures Rejected(raws + [data]) == if Route(data).None? then Rejected(raws) + [data] else Rejected(raws)
    ensures forall c :: Received(c, raws + [data])
                     == if Route(data).Some? && Route(data).value.0 == c then Received(c, raws) + [Route(data).value.1]
                        else Received(c, raws)
  {
    assert (raws + [data])[..|raws|] == raws;
  }

  /** Each channel's listeners were handed what was received on it, and the sink the rest. */
  ghost predicate Aligned(c2s: seq<Registries.SocketEvent>, s2c: seq<Registries.SocketEvent>, rejected: seq<Inbound>, raws: seq<Inbound>) {
    c2s == Messages(Received(C2S, raws)) && s2c == Messages(Received(S2C, raws)) && rejected == Rejected(raws)
  }

  lemma AlignedRejects(c2s: seq<Registries.SocketEvent>, s2c: seq<Registries.SocketEvent>, rejected: seq<Inbound>, raws: seq<Inbound>,
                       data: Inbound)
    requires Aligned(c2s, s2c, rejected, raws) && Route(data).None?
    ensures Aligned(c2s, s2c, rejected + [data], raws + [data])
  {
    ReceivedSnoc(raws, data);
  }

  lemma AlignedAccepts(c2s: seq<Registries.SocketEvent>, s2c: seq<Registries.SocketEvent>, rejected: seq<Inbound>, raws: seq<Inbound>,
                       data: Inbound, c: Channel, payload: Frame)
    requires Aligned(c2s, s2c, rejected, raws) && Route(data) == Some((c, payload))
    ensures c.C2S? ==> Aligned(c2s + [Registries.Data(payload)], s2c, rejected, raws + [data])
    ensures c.S2C? ==> Aligned(c2s, s2c + [Registries.Data(payload)], rejected, raws + [data])
  {
    ReceivedSnoc(raws, data);
    MessagesSnoc(Received(c, raws), payload);
  }

  class SocketMultiplexer {
    const registries: seq<Registries.ListenerRegistry>
    var attached: bool                // the real listeners are on the socket
    var disposed: bool
    var sent: seq<Frame>              // handed to the real socket
    var rejected: seq<Inbound>        // handed to the error sink
    ghost var inbound: seq<Inbound>   // delivered by the real socket while attached

    ghost predicate Valid()
      reads this, registries
    {
      && Apart()
      && Aligned(Handed(C2S), Handed(S2C), rejected, inbound)
      && (disposed ==> !attached)
    }

    /** Eight registries, none of them in the middle of an emit. */
    ghost predicate Apart()
      reads this, registries
    {
      && |registries| == 8
      && (forall i, j :: 0 <= i < j < 8 ==> registries[i] != registries[j])
      && (forall i :: 0 <= i < 8 ==> registries[i].Valid() && registries[i].model.stack == [])
    }

    function Registry(c: Channel, t: EventType): Registries.ListenerRegistry
      requires |registries| == 8
    {
      registries[Index(c, t)]
    }

    /** The events that the `message` listeners of `c` were called with on behalf of the socket. */
    ghost function Handed(c: Channel): seq<Registries.SocketEvent>
      requires |registries| == 8
      reads this, registries
    {
      Registry(c, Message).model.handed
    }

    /** Nothing happens to any registry but those of these numbers. */
    twostate predicate OnlyChanges(which: set<nat>)
      requires |registries| == 8
      reads registries
    {
      forall i :: 0 <= i < 8 && i !in which ==>
        registries[i].model == old(registries[i].model) && registries[i].listeners == old(registries[i].listeners)
    }

    /** No listener of another channel or type hears of anything. */
    twostate predicate OnlyConcerns(c: Channel, t: EventType)
      requires |registries| == 8
      reads registries
    {
      forall d, u :: d != c || u != t ==> Registry(d, u).model == old(Registry(d, u).model)
    }

    constructor ()
      ensures Valid() && attached && !disposed && sent == [] && inbound == []
      ensures forall i :: 0 <= i < 8 ==> fresh(registries[i]) && registries[i].model == Registries.NEW_REGISTRY
    {
      var created: seq<Registries.ListenerRegistry> := [];
      while |created| < 8
        invariant |created| <= 8
        invariant forall i :: 0 <= i < |created| ==>
                    fresh(created[i]) && created[i].Valid() && created[i].model == Registries.NEW_REGISTRY
        invariant forall i, j :: 0 <= i < j < |created| ==> created[i] != created[j]
      {
        var registry := new Registries.ListenerRegistry();
        created := created + [registry];
      }
      registries := created;
      attached, disposed, sent, rejected, inbound := true, false, [], [], [];
    }

    /** `addEventListener` of the facade of `c`: one registry, and no other. */
    method AddChannelListener(c: Channel, t: EventType, listener: nat, once: bool)
      requires Valid()
      modifies Registry(c, t)
      ensures Valid() && OnlyConcerns(c, t)
      ensures Registry(c, t).model == Registries.Step(old(Registry(c, t).model), Registries.Add(listener, once))
    {
      IndicesDiffer();
      Registry(c, t).Add(listener, once);
    }

    /** `removeEventListener` of the facade of `c`. */
    method RemoveChannelListener(c: Channel, t: EventType, listener: nat)
      requires Valid()
      modifies Registry(c, t)
      ensures Valid() && OnlyConcerns(c, t)
      ensures Registry(c, t).model == Registries.Step(old(Registry(c, t).model), Registries.Remove(listener))
    {
      IndicesDiffer();
      Registry(c, t).Remove(listener);
    }

    lemma IndicesDiffer()
      requires Apart()
      ensures forall c, t, d, u :: c != d || t != u ==> Registry(c, t) != Registry(d, u)
    {
      forall c, t, d, u | c != d || t != u ensures Registry(c, t) != Registry(d, u) {
        IndexIsInjective(c, t, d, u);
      }
    }

    method SendOn(c: Channel, data: Frame)
      requires Valid()
      modifies this`sent
      ensures Valid() && sent == old(sent) + [Tag(c, data)]
    {
      sent := sent + [Tag(c, data)];
    }

    /**
     The one real `message` listener: only the named channel hears of a frame, and
     is handed its payload; nobody hears of an unclassifiable one but the sink.
     */
    method HandleMessage(data: Inbound, script: Registries.Script)
      requires Valid() && attached
      modifies this, registries
      ensures Valid() && attached && disposed == old(disposed) && sent == old(sent)
      ensures inbound == old(inbound) + [data]
      ensures Route(data).None? ==> OnlyChanges({}) && rejected == old(rejected) + [data]
      ensures Route(data).Some? ==>
                var r := Registry(Route(data).value.0, Message);
                && OnlyChanges({Index(Route(data).value.0, Message)}) && rejected == old(rejected)
                && OnlyConcerns(Route(data).value.0, Message)
                && r.model == Registries.Emitted(old(r.model), Registries.Data(Route(data).value.1), script)
    {
      hide Registries.Emitted, Index, Aligned;
      var target := Route(data);
      if target.None? {
        Reject(data);
      } else {
        Accept(data, target.value.0, target.value.1, script);
      }
    }

    method Reject(data: Inbound)
      requires Valid() && Route(data).None?
      modifies this`inbound, this`rejected
      ensures Valid() && inbound == old(inbound) + [data] && rejected == old(rejected) + [data]
    {
      AlignedRejects(Handed(C2S), Handed(S2C), rejected, inbound, data);
      inbound, rejected := inbound + [data], rejected + [data];
    }

    method Accept(data: Inbound, c: Channel, payload: Frame, script: Registries.Script)
      requires Valid() && Route(data) == Some((c, payload))
      modifies this`inbound, Registry(c, Message)
      ensures Valid() && inbound == old(inbound) + [data]
      ensures OnlyChanges({Index(c, Message)}) && OnlyConcerns(c, Message)
      ensures Registry(c, Message).model == Registries.Emitted(old(Registry(c, Message).model), Registries.Data(payload), script)
    {
      hide Registries.Emitted, Aligned, Route;
      IndicesDiffer();
      AlignedAccepts(Handed(C2S), Handed(S2C), rejected, inbound, data, c, payload);
      Deliver(c, payload, script);
      inbound := inbound + [data];
    }

    method Deliver(c: Channel, payload: Frame, script: Registries.Script)
      requires Apart()
      modifies Registry(c, Message)
      ensures Apart() && OnlyChanges({Index(c, Message)})
      ensures forall d :: Handed(d) == if d == c then old(Handed(c)) + [Registries.Data(payload)] else old(Handed(d))
      ensures Registry(c, Message).model == Registries.Emitted(old(Registry(c, Message).model), Registries.Data(payload), script)
    {
      hide Registries.Emitted;
      Registry(c, Message).Emit(Registries.Data(payload), script);
    }

    /** `open`, `close` and `error` belong to the connection: both channels hear of them. */
    method FanOut(t: EventType, c2s: Registries.Script, s2c: Registries.Script)
      requires Valid() && attached && !t.Message?
      modifies registries
      ensures Valid() && OnlyChanges({Index(C2S, t), Index(S2C, t)})
      ensures forall c, u :: u != t ==> Registry(c, u).model == old(Registry(c, u).model)
      ensures Registry(C2S, t).model == Registries.Emitted(old(Registry(C2S, t).model), Registries.Lifecycle, c2s)
      ensures Registry(S2C, t).model == Registries.Emitted(old(Registry(S2C, t).model), Registries.Lifecycle, s2c)
    {
      hide Registries.Emitted;
      IndicesDiffer();
      FanOutTo(C2S, t, c2s);
      FanOutTo(S2C, t, s2c);
    }

    method FanOutTo(c: Channel, t: EventType, script: Registries.Script)
      requires Valid() && attached && !t.Message?
      modifies Registry(c, t)
      ensures Valid() && OnlyChanges({Index(c, t)})
      ensures Registry(c, t).model == Registries.Emitted(old(Registry(c, t).model), Registries.Lifecycle, script)
    {
      hide Registries.Emitted;
      Registry(c, t).Emit(Registries.Lifecycle, script);
    }

    /** The real listeners go first, then every registered one; a second call does nothing. */
    method Dispose()
      requires Valid()
      modifies this, registries
      ensures Valid() && disposed && !attached
      ensures sent == old(sent) && inbound == old(inbound) && rejected == old(rejected)
      ensures old(disposed) ==> OnlyChanges({})
      ensures !old(disposed) ==> forall i :: 0 <= i < 8 ==>
                registries[i].listeners == [] && registries[i].model == old(registries[i].model).(listeners := [])
    {
      if disposed {
        return;
      }
      disposed, attached := true, false;
      ClearAll();
    }

    method ClearAll()
      requires Apart()
      modifies registries
      ensures forall i :: 0 <= i < 8 ==>
                && registries[i].Valid() && registries[i].listeners == []
                && registries[i].model == old(registries[i].model).(listeners := [])
    {
      for i := 0 to 8
        invariant forall k :: 0 <= k < 8 ==> registries[k].Valid() && registries[k].model.stack == []
        invariant forall k :: 0 <= k < i ==>
                    registries[k].listeners == [] && registries[k].model == old(registries[k].model).(listeners := [])
        invariant forall k :: i <= k < 8 ==>
                    registries[k].listeners == old(registries[k].listeners) && registries[k].model == old(registries[k].model)
      {
        registries[i].Clear();
      }
    }
  }

  // ---------- one end sends, the other receives ----------

  /** A sender whose channels send `items` in that order; the strays are not its own. */
  method SendAll(items: seq<Item>) returns (mux: SocketMultiplexer)
    ensures fresh(mux) && mux.Valid() && mux.sent == Tagged(items)
  {
    mux := new SocketMultiplexer();
    for i := 0 to |items|
      invariant fresh(mux) && fresh(mux.registries) && mux.Valid() && mux.sent == Tagged(items[..i])
    {
      assert items[..i + 1][..i] == items[..i];
      if items[i].Sent? {
        mux.SendOn(items[i].channel, items[i].frame);
      }
    }
    assert items[..|items|] == items;
  }

  function Tagged(items: seq<Item>): seq<Frame> {
    if items == [] then []
    else
      var last := items[|items| - 1];
      Tagged(items[..|items| - 1]) + if last.Sent? then [OnWire(last)] else []
  }

  /**
   A connection that delivers `raws`, to listeners that do as `scripts` say, emits
   included: on each channel exactly the frames received on it are emitted, one
   emit each, in order, and the sink gets the rest.
   */
  method ReceiveAll(raws: seq<Inbound>, scripts: nat -> Registries.Script) returns (mux: SocketMultiplexer)
    ensures fresh(mux) && mux.Valid() && mux.rejected == Rejected(raws)
    ensures forall c :: mux.Handed(c) == Messages(Received(c, raws))
  {
    hide Registries.Emitted, Route;
    mux := new SocketMultiplexer();
    for i := 0 to |raws|
      invariant fresh(mux) && fresh(mux.registries) && mux.Valid() && mux.attached && mux.inbound == raws[..i]
    {
      assert raws[..i] + [raws[i]] == raws[..i + 1];
      mux.HandleMessage(raws[i], scripts(i));
    }
    assert raws[..|raws|] == raws;
  }

  /**
   End to end: whatever one side sends on its two channels, with any untagged
   frames in between, the listeners of each channel on the other side are called
   with exactly the frames sent on it, in order, and the sink gets the others.
   */
  method Live(items: seq<Item>, scripts: nat -> Registries.Script) returns (mux: SocketMultiplexer)
    requires forall i :: i in items && i.Stray? ==> Leading(i.raw).None?
    ensures fresh(mux) && mux.Valid() && mux.rejected == Strays(items)
    ensures forall c :: mux.Handed(c) == Messages(SentOn(c, items))
  {
    BothProject(items);
    mux := ReceiveAll(Wire(items), scripts);
  }

  lemma BothProject(items: seq<Item>)
    requires forall i :: i in items && i.Stray? ==> Leading(i.raw).None?
    ensures forall c :: Received(c, Wire(items)) == SentOn(c, items)
    ensures Rejected(Wire(items)) == Strays(items)
  {
    DemuxIsProjection(C2S, items);
    DemuxIsProjection(S2C, items);
  }
}
