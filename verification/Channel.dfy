/**
 The channel codec: a frame of either direction carries its channel's tag as
 its first unit, a character of a text frame or a byte of a binary one.
 */
module Channels {
  import opened Wrappers

  type byte = x | 0 <= x < 256

  datatype Channel = C2S | S2C

  /** A frame's contents; how the bytes are stored does not matter on the wire. */
  datatype Frame = Text(text: string) | Binary(bytes: seq<byte>)

  datatype TagError = UnknownTag

  function TagChar(c: Channel): char {
    if c.C2S? then '>' else '<'
  }

  /** Derived from the character, which is ASCII. */
  function TagByte(c: Channel): byte {
    TagChar(c) as int
  }

  const CHANNELS := [C2S, S2C]

  function FromChar(t: char): Option<Channel> {
    if t == TagChar(CHANNELS[0]) then Some(CHANNELS[0])
    else if t == TagChar(CHANNELS[1]) then Some(CHANNELS[1])
    else None
  }

  function FromByte(t: byte): Option<Channel> {
    if t == TagByte(CHANNELS[0]) then Some(CHANNELS[0])
    else if t == TagByte(CHANNELS[1]) then Some(CHANNELS[1])
    else None
  }

  function Tag(c: Channel, f: Frame): Frame {
    match f
    case Text(t) => Text([TagChar(c)] + t)
    case Binary(b) => Binary([TagByte(c)] + b)
  }

  /** The channel that the first unit names, if there is one. */
  function Leading(raw: Frame): Option<Channel> {
    match raw
    case Text(t) => if t == [] then None else FromChar(t[0])
    case Binary(b) => if b == [] then None else FromByte(b[0])
  }

  function Rest(raw: Frame): Frame {
    match raw
    case Text(t) => Text(if t == [] then [] else t[1..])
    case Binary(b) => Binary(if b == [] then [] else b[1..])
  }

  function Untag(raw: Frame): Result<(Channel, Frame), TagError> {
    match Leading(raw)
    case None => Err(UnknownTag)
    case Some(c) => Ok((c, Rest(raw)))
  }

  lemma UntagsTagged(c: Channel, f: Frame)
    ensures Leading(Tag(c, f)) == Some(c) && Untag(Tag(c, f)) == Ok((c, f))
  {
    match f
    case Text(t) => assert ([TagChar(c)] + t)[1..] == t;
    case Binary(b) => assert ([TagByte(c)] + b)[1..] == b;
  }

  lemma TagsUntagged(raw: Frame)
    requires Leading(raw).Some?
    ensures raw == Tag(Leading(raw).value, Rest(raw))
  {
    match raw
    case Text(t) => assert t == [t[0]] + t[1..];
    case Binary(b) => assert b == [b[0]] + b[1..];
  }

  /** The two directions undo each other, so no two channels or frames collide on the wire. */
  lemma TagRoundTrip(c: Channel, f: Frame, raw: Frame)
    ensures Untag(raw) == Ok((c, f)) <==> raw == Tag(c, f)
    ensures Untag(raw).Err? <==> forall c', f' :: raw != Tag(c', f')
  {
    UntagsTagged(c, f);
    if Leading(raw).Some? {
      TagsUntagged(raw);
    } else {
      forall c', f' ensures raw != Tag(c', f') {
        UntagsTagged(c', f');
      }
    }
  }

  /** What is on the wire: the tag character before a text, its code before bytes; nothing else names a channel. */
  lemma WireFormat(raw: Frame)
    ensures Leading(raw) == Some(C2S) <==> (raw.Text? && ">" <= raw.text) || (raw.Binary? && raw.bytes != [] && raw.bytes[0] == 62)
    ensures Leading(raw) == Some(S2C) <==> (raw.Text? && "<" <= raw.text) || (raw.Binary? && raw.bytes != [] && raw.bytes[0] == 60)
  {
  }

  // ---------- frames in memory ----------

  /** A `Uint8Array`: a window onto a buffer that others may share. */
  datatype View = View(buffer: array<byte>, offset: nat, length: nat)

  ghost predicate InBounds(v: View) {
    v.offset + v.length <= v.buffer.Length
  }

  function Bytes(v: View): seq<byte>
    requires InBounds(v)
    reads v.buffer
  {
    v.buffer[v.offset..v.offset + v.length]
  }

  datatype WireFrame = TextFrame(text: string) | BinaryFrame(view: View)

  ghost predicate WellFormed(f: WireFrame) {
    f.BinaryFrame? ==> InBounds(f.view)
  }

  function Contents(f: WireFrame): Frame
    requires WellFormed(f)
    reads if f.BinaryFrame? then {f.view.buffer} else {}
  {
    match f
    case TextFrame(t) => Text(t)
    case BinaryFrame(v) => Binary(Bytes(v))
  }

  /** A fresh buffer; the source view may start anywhere in its own. */
  method PrependByte(v: View, b: byte) returns (out: View)
    requires InBounds(v)
    ensures InBounds(out) && fresh(out.buffer)
    ensures Bytes(out) == [b] + Bytes(v)
  {
    var buffer := new byte[v.length + 1];
    buffer[0] := b;
    forall i | 0 <= i < v.length {
      buffer[i + 1] := v.buffer[v.offset + i];
    }
    out := View(buffer, 0, v.length + 1);
    assert forall i :: 1 <= i <= v.length ==> buffer[i] == v.buffer[v.offset + i - 1];
    assert Bytes(out) == [b] + Bytes(v);
  }

  /** Copies; the caller's frame is left alone. */
  method TagFrame(c: Channel, f: WireFrame) returns (raw: WireFrame)
    requires WellFormed(f)
    ensures WellFormed(raw) && Contents(raw) == Tag(c, Contents(f))
    ensures raw.BinaryFrame? ==> fresh(raw.view.buffer)
  {
    match f {
      case TextFrame(t) => raw := TextFrame([TagChar(c)] + t);
      case BinaryFrame(v) =>
        var out := PrependByte(v, TagByte(c));
        raw := BinaryFrame(out);
    }
  }

  /** Does not copy: the remainder of a binary frame shares the buffer of `raw`. */
  method UntagFrame(raw: WireFrame) returns (r: Result<(Channel, WireFrame), TagError>)
    requires WellFormed(raw)
    ensures r.Err? <==> Untag(Contents(raw)).Err?
    ensures r.Ok? ==> WellFormed(r.value.1) && Untag(Contents(raw)) == Ok((r.value.0, Contents(r.value.1)))
    ensures r.Ok? && raw.BinaryFrame? ==> r.value.1.BinaryFrame? && r.value.1.view.buffer == raw.view.buffer
  {
    match raw {
      case TextFrame(t) =>
        if t == [] {
          return Err(UnknownTag);
        }
        var c := FromChar(t[0]);
        r := if c.None? then Err(UnknownTag) else Ok((c.value, TextFrame(t[1..])));
      case BinaryFrame(v) =>
        if v.length == 0 {
          return Err(UnknownTag);
        }
        var c := FromByte(v.buffer[v.offset]);
        r := if c.None? then Err(UnknownTag) else Ok((c.value, BinaryFrame(View(v.buffer, v.offset + 1, v.length - 1))));
    }
  }

  // ---------- two channels on one wire ----------

  /** What travels on the wire, in order: tagged frames and anything else. */
  datatype Item = Sent(channel: Channel, frame: Frame) | Stray(raw: Frame)

  function OnWire(i: Item): Frame {
    match i
    case Sent(c, f) => Tag(c, f)
    case Stray(raw) => raw
  }

  /** A socket may also deliver what is no frame at all. */
  datatype Inbound = Decodable(frame: Frame) | Unsupported

  function Wire(items: seq<Item>): seq<Inbound> {
    if items == [] then [] else [Decodable(OnWire(items[0]))] + Wire(items[1..])
  }

  /** The frames sent on `c`. */
  function SentOn(c: Channel, items: seq<Item>): seq<Frame> {
    if items == [] then []
    else if items[0].Sent? && items[0].channel == c then [items[0].frame] + SentOn(c, items[1..])
    else SentOn(c, items[1..])
  }

  function Strays(items: seq<Item>): seq<Inbound> {
    if items == [] then []
    else if items[0].Stray? then [Decodable(items[0].raw)] + Strays(items[1..])
    else Strays(items[1..])
  }

  /** Where one inbound frame goes; None is the error sink. */
  function Route(i: Inbound): Option<(Channel, Frame)> {
    if i.Unsupported? then None
    else match Untag(i.frame)
      case Ok(x) => Some(x)
      case Err(_) => None
  }

  function Received(c: Channel, raws: seq<Inbound>): seq<Frame> {
    if raws == [] then []
    else
      var last := Route(raws[|raws| - 1]);
      Received(c, raws[..|raws| - 1]) + if last.Some? && last.value.0 == c then [last.value.1] else []
  }

  function Rejected(raws: seq<Inbound>): seq<Inbound> {
    if raws == [] then []
    else
      var last := raws[|raws| - 1];
      Rejected(raws[..|raws| - 1]) + if Route(last).None? then [last] else []
  }

  lemma {:induction false} ReceivedAppends(c: Channel, a: seq<Inbound>, b: seq<Inbound>)
    ensures Received(c, a + b) == Received(c, a) + Received(c, b)
    ensures Rejected(a + b) == Rejected(a) + Rejected(b)
  {
    if b == [] {
      assert a + b == a;
    } else {
      assert (a + b)[..|a + b| - 1] == a + b[..|b| - 1];
      ReceivedAppends(c, a, b[..|b| - 1]);
    }
  }

  lemma Singletons(c: Channel, i: Item)
    ensures Wire([i]) == [Decodable(OnWire(i))]
    ensures SentOn(c, [i]) == if i.Sent? && i.channel == c then [i.frame] else []
    ensures Strays([i]) == if i.Stray? then [Decodable(i.raw)] else []
  {
    assert [i][1..] == [];
  }

  lemma RouteOne(c: Channel, i: Item)
    requires i.Stray? ==> Leading(i.raw).None?
    ensures Received(c, Wire([i])) == SentOn(c, [i]) && Rejected(Wire([i])) == Strays([i])
  {
    Singletons(c, i);
    ReceivedOne(c, Decodable(OnWire(i)));
    if i.Sent? {
      UntagsTagged(i.channel, i.frame);
    }
  }

  lemma ReceivedOne(c: Channel, i: Inbound)
    ensures Received(c, [i]) == if Route(i).Some? && Route(i).value.0 == c then [Route(i).value.1] else []
    ensures Rejected([i]) == if Route(i).None? then [i] else []
  {
    assert [i][..0] == [];
  }

  lemma SplitFirst(c: Channel, items: seq<Item>)
    requires items != []
    ensures Wire(items) == Wire([items[0]]) + Wire(items[1..])
    ensures SentOn(c, items) == SentOn(c, [items[0]]) + SentOn(c, items[1..])
    ensures Strays(items) == Strays([items[0]]) + Strays(items[1..])
  {
    Singletons(c, items[0]);
  }

  /**
   Demultiplexing is projection. However sends on the two channels and frames
   without a valid tag are interleaved, each channel receives exactly what was
   sent on it, in order, and the sink gets each of the others once.
   */
  lemma {:induction false} DemuxIsProjection(c: Channel, items: seq<Item>)
    requires forall i :: i in items && i.Stray? ==> Leading(i.raw).None?
    ensures Received(c, Wire(items)) == SentOn(c, items)
    ensures Rejected(Wire(items)) == Strays(items)
  {
    if items != [] {
      DemuxIsProjection(c, items[1..]);
      RouteOne(c, items[0]);
      SplitFirst(c, items);
      ReceivedAppends(c, Wire([items[0]]), Wire(items[1..]));
    }
  }
}
