/**
 The C2S message framing and the WebSocket frame that carries one message to a browser.

 `Written` is what the host puts on a socket; `TakeOne` and `ReadAll` are an independent reader,
 written from the frame layout of section 5.2 of RFC 6455 and the eight-byte C2S header; it refuses
 what the first forbids and what the second reserves. The limit
 of section 5.5 on control frames is the pinging side's to keep: a pong repeats what it was sent.
 */
module Wire {
  import opened Bytes

  const HEADER_SIZE: nat := 8
  const MAX_PAYLOAD: nat := 4 * 1024 * 1024
  const MAX_WS_HEADER: nat := 10

  const MSG_VIDEO: byte := 1
  const MSG_AUDIO: byte := 2
  const MSG_PING: byte := 17
  const MSG_CODEC: byte := 20
  const MSG_STREAM_INFO: byte := 21
  const MSG_KEYFRAME: byte := 22
  const MSG_SHARED: byte := 26
  const MSG_HELLO_ACK: byte := 27

  const FLAG_KEYFRAME: byte := 1

  datatype Message = Message(kind: byte, flags: byte, payload: seq<byte>)

  /** The sender never exceeds the payload limit, so a reader may refuse anything longer. */
  predicate Sendable(m: Message) {
    |m.payload| <= MAX_PAYLOAD
  }

  /** What a greeted client is written: a message, or the answer to a browser's ping. */
  datatype Item = Data(message: Message) | Pong(payload: seq<byte>)

  predicate Writable(ws: bool, it: Item) {
    match it
    case Data(m) => Sendable(m)
    case Pong(p) => ws && |p| <= MAX_PAYLOAD
  }

  predicate AllWritable(ws: bool, its: seq<Item>) {
    forall i :: 0 <= i < |its| ==> Writable(ws, its[i])
  }

  function Encode(m: Message): (b: seq<byte>)
    ensures |b| == HEADER_SIZE + |m.payload|
  {
    [m.kind, m.flags, 0, 0] + Le32(|m.payload|) + m.payload
  }

  /** The first byte of a final WebSocket frame, binary or pong. */
  const WS_BINARY: byte := 0x82
  const WS_PONG: byte := 0x8A

  /** The header of one final, unmasked WebSocket frame. */
  function WsHeader(first: byte, len: nat): (b: seq<byte>)
    ensures 2 <= |b| <= MAX_WS_HEADER && b[0] == first
  {
    if len < 126 then [first, len]
    else if len <= 0xffff then [first, 126] + BigEndian(len, 2)
    else [first, 127] + BigEndian(len, 8)
  }

  /** The bytes of one message as one client reads them: framed once more for a browser. */
  function Wrap(ws: bool, m: Message): (b: seq<byte>)
    ensures HEADER_SIZE + |m.payload| <= |b| <= MAX_WS_HEADER + HEADER_SIZE + |m.payload|
    ensures !ws ==> |b| == HEADER_SIZE + |m.payload|
  {
    if ws then WsHeader(WS_BINARY, |Encode(m)|) + Encode(m) else Encode(m)
  }

  function PongFrame(payload: seq<byte>): (b: seq<byte>)
    ensures |b| >= 2 && b[0] == WS_PONG
  {
    WsHeader(WS_PONG, |payload|) + payload
  }

  function Written(ws: bool, it: Item): (b: seq<byte>)
    ensures |b| >= 2
  {
    match it
    case Data(m) => Wrap(ws, m)
    case Pong(p) => PongFrame(p)
  }

  function EncodeAll(ws: bool, its: seq<Item>): seq<byte>
  {
    if its == [] then [] else Written(ws, its[0]) + EncodeAll(ws, its[1..])
  }

  // ------------------------------------------------------------------ the reader

  datatype Reading = Incomplete | Malformed | Whole(item: Item, used: nat)

  /** Reads one C2S message from the front of b. */
  function TakeMessage(b: seq<byte>): (t: Reading)
    ensures t.Whole? ==> HEADER_SIZE <= t.used <= |b|
  {
    if |b| < HEADER_SIZE then Incomplete
    else
      var size := FromLe32(b[4..8]);
      if size > MAX_PAYLOAD || b[2] != 0 || b[3] != 0 then Malformed
      else if |b| < HEADER_SIZE + size then Incomplete
      else Whole(Data(Message(b[0], b[1], b[HEADER_SIZE..HEADER_SIZE + size])), HEADER_SIZE + size)
  }

  datatype WsHead = HeadIncomplete | HeadMalformed | Head(len: nat, header: nat)

  /** Reads the header of one final, unmasked frame that is binary or a pong. A length must be given in
      the shortest form there is for it, and its top bit must be clear. */
  function TakeWsHeader(b: seq<byte>): (h: WsHead)
    ensures h.Head? ==> 2 <= h.header <= |b|
  {
    if |b| < 2 then HeadIncomplete
    else if b[0] !in {WS_BINARY, WS_PONG} || b[1] >= 128 then HeadMalformed
    else if b[1] < 126 then Head(b[1], 2)
    else if b[1] == 126 then
      if |b| < 4 then HeadIncomplete
      else
        var len := FromBigEndian(b[2..4]);
        if len < 126 then HeadMalformed else Head(len, 4)
    else
      if |b| < 10 then HeadIncomplete
      else
        var len := FromBigEndian(b[2..10]);
        if len <= 0xffff || len >= 0x8000_0000_0000_0000 then HeadMalformed else Head(len, 10)
  }

  /** One frame as a browser reads it: a pong, or exactly one message. */
  function TakeFrame(b: seq<byte>): (t: Reading)
    ensures t.Whole? ==> 2 <= t.used <= |b|
  {
    var h := TakeWsHeader(b);
    if h.HeadIncomplete? then Incomplete
    else if h.HeadMalformed? then Malformed
    else if |b| < h.header + h.len then Incomplete
    else if b[0] == WS_PONG then Whole(Pong(b[h.header..h.header + h.len]), h.header + h.len)
    else
      var t := TakeMessage(b[h.header..h.header + h.len]);
      if t.Whole? && t.used == h.len then Whole(t.item, h.header + h.len) else Malformed
  }

  function TakeOne(ws: bool, b: seq<byte>): (t: Reading)
    ensures t.Whole? ==> 2 <= t.used <= |b|
  {
    if ws then TakeFrame(b) else TakeMessage(b)
  }

  /** Everything complete at the front of b, in order. */
  function ReadAll(ws: bool, b: seq<byte>): seq<Item>
    decreases |b|
  {
    var t := TakeOne(ws, b);
    if t.Whole? then [t.item] + ReadAll(ws, b[t.used..]) else []
  }

  // ------------------------------------------------------------------ round trips

  lemma EncodeFields(m: Message, rest: seq<byte>)
    requires Sendable(m)
    ensures var b := Encode(m) + rest;
            b[0] == m.kind && b[1] == m.flags && FromLe32(b[4..8]) == |m.payload|
  {
    var b := Encode(m) + rest;
    Le32RoundTrip(|m.payload|);
    assert b[4..8] == Le32(|m.payload|);
  }

  lemma TakeMessageWhole(m: Message, rest: seq<byte>)
    requires Sendable(m)
    ensures TakeMessage(Encode(m) + rest) == Whole(Data(m), |Encode(m)|)
  {
    EncodeFields(m, rest);
    var b := Encode(m) + rest;
    assert b[HEADER_SIZE..HEADER_SIZE + |m.payload|] == m.payload;
  }

  lemma TakeMessagePartial(m: Message, k: nat)
    requires Sendable(m)
    requires k < |Encode(m)|
    ensures TakeMessage(Encode(m)[..k]) == Incomplete
  {
    if k >= HEADER_SIZE {
      EncodeFields(m, []);
      assert Encode(m) + [] == Encode(m);
      assert Encode(m)[..k][4..8] == Encode(m)[4..8];
    }
  }

  lemma Pow256Facts()
    ensures Pow256(2) == 0x1_0000
    ensures Pow256(8) >= 0x1_0000_0000
  {
    assert Pow256(1) == 256 * Pow256(0);
    assert Pow256(4) == 256 * Pow256(3);
    assert Pow256(8) == 256 * Pow256(7);
    assert Pow256(6) == 256 * Pow256(5);
  }

  lemma TakeWsHeaderWhole(first: byte, len: nat, rest: seq<byte>)
    requires first in {WS_BINARY, WS_PONG} && len < 0x1_0000_0000
    ensures TakeWsHeader(WsHeader(first, len) + rest) == Head(len, |WsHeader(first, len)|)
  {
    var b := WsHeader(first, len) + rest;
    Pow256Facts();
    if 126 <= len <= 0xffff {
      BigEndianRoundTrip(len, 2);
      assert b[2..4] == BigEndian(len, 2);
    } else if len > 0xffff {
      BigEndianRoundTrip(len, 8);
      assert b[2..10] == BigEndian(len, 8);
    }
  }

  /** A header cut short is incomplete. */
  lemma TakeWsHeaderPartial(first: byte, len: nat, k: nat)
    requires first in {WS_BINARY, WS_PONG} && k < |WsHeader(first, len)|
    ensures TakeWsHeader(WsHeader(first, len)[..k]) == HeadIncomplete
  {
  }

  /** What follows the header of a frame, up to the frame's length. */
  lemma FrameBody(first: byte, body: seq<byte>, rest: seq<byte>)
    requires first in {WS_BINARY, WS_PONG} && |body| < 0x1_0000_0000
    ensures var h := WsHeader(first, |body|);
            var b := h + body + rest;
            TakeWsHeader(b) == Head(|body|, |h|) && b[0] == first && b[|h|..|h| + |body|] == body
  {
    var h := WsHeader(first, |body|);
    TakeWsHeaderWhole(first, |body|, body + rest);
    assert h + body + rest == h + (body + rest);
  }

  lemma TakeOneWhole(ws: bool, it: Item, rest: seq<byte>)
    requires Writable(ws, it)
    ensures TakeOne(ws, Written(ws, it) + rest) == Whole(it, |Written(ws, it)|)
  {
    hide TakeWsHeader, WsHeader, TakeMessage, Encode;
    match it {
      case Pong(p) => FrameBody(WS_PONG, p, rest);
      case Data(m) =>
        if ws {
          FrameBody(WS_BINARY, Encode(m), rest);
          TakeMessageWhole(m, []);
          assert Encode(m) + [] == Encode(m);
        } else {
          TakeMessageWhole(m, rest);
        }
    }
  }

  /** A frame cut short is incomplete, wherever it is cut. */
  lemma TakeFramePartial(first: byte, body: seq<byte>, k: nat)
    requires first in {WS_BINARY, WS_PONG} && |body| < 0x1_0000_0000
    requires k < |WsHeader(first, |body|) + body|
    ensures TakeFrame((WsHeader(first, |body|) + body)[..k]) == Incomplete
  {
    hide TakeWsHeader, WsHeader;
    var h := WsHeader(first, |body|);
    if k < |h| {
      TakeWsHeaderPartial(first, |body|, k);
      assert (h + body)[..k] == h[..k];
    } else {
      TakeWsHeaderWhole(first, |body|, body[..k - |h|]);
      assert (h + body)[..k] == h + body[..k - |h|];
    }
  }

  lemma TakeOnePartial(ws: bool, it: Item, k: nat)
    requires Writable(ws, it)
    requires k < |Written(ws, it)|
    ensures TakeOne(ws, Written(ws, it)[..k]) == Incomplete
  {
    hide TakeFrame, WsHeader, TakeMessage, Encode;
    match it {
      case Pong(p) => TakeFramePartial(WS_PONG, p, k);
      case Data(m) =>
        if ws {
          TakeFramePartial(WS_BINARY, Encode(m), k);
        } else {
          TakeMessagePartial(m, k);
        }
    }
  }

  /**
   Whatever part of the stream has reached the reader, what it has read are the first items
   written, in order; once nothing is left behind, they are all of them.
   */
  lemma {:induction false} ReadAllOfPrefix(ws: bool, its: seq<Item>, b: seq<byte>, tail: seq<byte>)
    requires AllWritable(ws, its) && b + tail == EncodeAll(ws, its)
    ensures ReadAll(ws, b) <= its
    ensures tail == [] ==> ReadAll(ws, b) == its
    decreases |its|
  {
    hide Written, TakeOne;
    if its == [] {
      assert b == [] && tail == [];
      NothingToTake(ws);
    } else {
      var w := Written(ws, its[0]);
      var all := EncodeAll(ws, its);
      if |b| >= |w| {
        var rest := b[|w|..];
        assert all[..|w|] == w && all[|w|..] == EncodeAll(ws, its[1..]);
        assert b[..|w|] == (b + tail)[..|w|] == w;
        assert b == w + rest;
        assert rest + tail == (b + tail)[|w|..];
        TakeOneWhole(ws, its[0], rest);
        ReadAllOfPrefix(ws, its[1..], rest, tail);
        assert its == [its[0]] + its[1..];
      } else {
        assert b == (b + tail)[..|b|] == all[..|b|] == w[..|b|];
        TakeOnePartial(ws, its[0], |b|);
      }
    }
  }

  lemma NothingToTake(ws: bool)
    ensures TakeOne(ws, []) == Incomplete
  {
  }

  lemma {:induction false} EncodeAllAppend(ws: bool, its: seq<Item>, it: Item)
    ensures EncodeAll(ws, its + [it]) == EncodeAll(ws, its) + Written(ws, it)
  {
    hide Written;
    if its == [] {
      assert its + [it] == [it];
      assert EncodeAll(ws, [it][1..]) == [];
    } else {
      assert (its + [it])[1..] == its[1..] + [it];
      EncodeAllAppend(ws, its[1..], it);
    }
  }
}
