/**
 The parts that concrete runs of the transport are put together from: a client that is accepted, says
 hello, asks for a codec, on a transport that has announced nothing yet.
 */
module Scenes {
  import opened Bytes
  import opened Wire
  import opened ClientModel
  import opened StreamModel
  import opened Transport
  import opened Invariant

  /** A keyframe of one byte. */
  const PICTURE: Message := Message(MSG_VIDEO, FLAG_KEYFRAME, [7])

  /** Every socket can tell nothing and every buffer can grow. */
  const ENVS: seq<Env> := seq(MAX_CLIENTS, _ => Env(None, true))

  /** One more step at the end of a run. */
  lemma {:induction false} RunSnoc(s: Stream, es: seq<Event>, m: Stream, e: Event)
    requires Shape(s) && Run(s, es, m) && Shape(m) && Enabled(m, e)
    ensures Run(s, es + [e], Step(m, e))
    decreases |es|
  {
    hide Step, Enabled;
    if es == [] {
      assert es + [e] == [e] && [e][1..] == [];
      assert Run(Step(m, e), [], Step(m, e));
    } else {
      assert (es + [e])[0] == es[0] && (es + [e])[1..] == es[1..] + [e];
      RunSnoc(Step(s, es[0]), es[1..], m, e);
    }
  }

  /** Nothing is known of any stream yet, so nobody is told anything. */
  predicate Untold(s: Stream) {
    Shape(s) && forall k :: 0 <= k < STREAM_COUNT ==> !s.groups[k].known && !s.groups[k].sharedKnown
  }

  lemma NothingToTell(s: Stream, c: Client)
    requires Untold(s)
    ensures Told(s, c) == c
  {
  }

  /** A greeting without a token. */
  function Salute(caps: nat): (b: seq<byte>)
    ensures |b| == HELLO_SIZE
  {
    Le32(MAGIC) + [VERSION, 0] + Le16(caps)
  }

  lemma HelloParses(old3ds: bool, caps: nat)
    requires caps < 0x1_0000 && (old3ds ==> Bit(caps, 0x8000))
    ensures ParseHello(old3ds, Salute(caps)) == HelloAccepted(HELLO_SIZE, caps)
  {
    var b := Salute(caps);
    Le32RoundTrip(MAGIC);
    assert b[0..4] == Le32(MAGIC);
    assert b[6..8] == Le16(caps);
  }

  /** A native client that has been accepted and has said nothing; its socket will take twenty bytes. */
  predicate Newcomer(c: Client, net: seq<int>) {
    c.seat.used && !c.seat.done && !c.seat.isWs && c.rx == [] && c.feed == FreshFeed([20] + net)
  }

  /** A client that has said hello, once it is greeted. */
  function Guest(s: Stream, c: Client, caps: nat, ack: seq<byte>, net: seq<int>): Client {
    var seat := Introduced(s.udp, c.seat, caps, true);
    Client(seat.(done := true),
           Feed(Out(net, [], 0, ack, ack, [], true), seat.onOld3ds && PredictiveCodec(s.old3dsCodec), []),
           [], c.received, c.heard, c.lastSeen, c.lastProbe)
  }

  /** The whole reply goes out at once. */
  lemma Replies(o: Out, ack: seq<byte>, net: seq<int>)
    requires o == FreshFeed([20] + net).out && |ack| == 20
    ensures Greet(o, ack) == (Out(net, [], 0, ack, ack, [], true), true)
  {
    assert ([20] + net)[1..] == net;
    assert ack[..20] == ack && ack[20..] == [];
    assert [] + ack == ack;
    var after := o.(net := net, wire := ack);
    assert SendAll(after, []) == (after, true);
    assert SendAll(o, ack) == SendAll(after, ack[20..]);
  }

  lemma IsAnswered(s: Stream, i: nat, caps: nat, net: seq<int>) returns (ack: seq<byte>)
    requires Untold(s) && i < MAX_CLIENTS && caps < 0x1_0000
    requires var c := s.clients[i];
             !c.seat.done && c.rx == Salute(caps) && c.feed == FreshFeed([20] + net)
             && (c.seat.onOld3ds ==> Bit(caps, 0x8000))
    ensures |ack| == 20
    ensures HandleHello(s, i, true) == Recount(Put(s, i, Guest(s, s.clients[i], caps, ack, net)))
  {
    hide Counts, Ack, Greet, ParseHello;
    var c := s.clients[i];
    HelloParses(c.seat.onOld3ds, caps);
    var seat := Introduced(s.udp, c.seat, caps, true);
    ack := AckFor(s, seat);
    Replies(c.feed.out, ack, net);
    var w := Welcomed(c, HELLO_SIZE, seat, ack, seat.onOld3ds && PredictiveCodec(s.old3dsCodec));
    assert c.rx[HELLO_SIZE..] == [];
    assert w == (Guest(s, c, caps, ack, net), true);
    NothingToTell(s, w.0);
  }

  /** A newcomer says hello. */
  lemma Greets(s: Stream, i: nat, caps: nat, net: seq<int>) returns (ack: seq<byte>)
    requires Untold(s) && i < MAX_CLIENTS && Newcomer(s.clients[i], net) && caps < 0x1_0000
    requires s.clients[i].seat.onOld3ds ==> Bit(caps, 0x8000)
    ensures |ack| == 20 && Enabled(s, NativeBytes(i, Salute(caps), 0, true))
    ensures Step(s, NativeBytes(i, Salute(caps), 0, true))
            == Recount(Put(s, i, Guest(s, Hearing(s.clients[i], Salute(caps), 0), caps, ack, net)))
  {
    hide HandleHello, Salute, Counts;
    var c := s.clients[i];
    var heard := Hearing(c, Salute(caps), 0);
    var s1 := Put(s, i, heard);
    assert [] + Salute(caps) == Salute(caps);
    ack := IsAnswered(s1, i, caps, net);
    var s2 := HandleHello(s1, i, true);
    PutTwice(s, i, heard, Guest(s1, heard, caps, ack, net));
    assert HandleMessages(s2, i, RX_CAPACITY) == s2;
  }

  /** A client arrives at the first free entry, and is nobody's double. */
  lemma Arrives(s: Stream, i: nat, door: Door, peer: nat, net: seq<int>)
    requires Shape(s) && i < MAX_CLIENTS && !s.clients[i].seat.used && (door.WiiuDoor? ==> peer == 0)
    requires forall k :: 0 <= k < i ==> s.clients[k].seat.used
    ensures Step(s, NativeArrives(door, peer, 0, net))
            == Put(s, i, Client(NewcomerSeat(s.old3dsCodec, door, peer), FreshFeed(net), [], [], [], 0, 0))
  {
    assert FirstFree(s.clients) == i;
  }

  /** A request for a codec, from a client of the Old 3DS stream. */
  function Wish(codec: byte): (m: Message) {
    Message(MSG_CODEC, 0, [codec])
  }

  function Moved(c: Client, codec: byte): Client {
    if c.seat.used && c.seat.done && c.seat.onOld3ds then Retuned(c, codec, PredictiveCodec(codec)) else c
  }

  /** It moves everybody who has been greeted, and nobody else. */
  lemma Wishes(s: Stream, i: nat, codec: byte)
    requires Untold(s) && i < MAX_CLIENTS && Old3dsCodec(codec) && s.old3dsCodec != codec
    requires var c := s.clients[i];
             c.seat.used && c.seat.done && !c.seat.isWs && c.seat.onOld3ds && c.rx == []
    ensures Enabled(s, NativeBytes(i, Encode(Wish(codec)), 0, true))
    ensures var r := Step(s, NativeBytes(i, Encode(Wish(codec)), 0, true));
            && Untold(r) && r.old3dsCodec == codec && r.clients[i].rx == []
            && forall j :: 0 <= j < MAX_CLIENTS ==>
                 r.clients[j].seat == Moved(s.clients[j], codec).seat
                 && r.clients[j].feed == Moved(s.clients[j], codec).feed
                 && (j != i ==> r.clients[j] == Moved(s.clients[j], codec))
  {
    hide Counts, NextPiece, SwitchTo, AnnouncedCodec;
    var b := Encode(Wish(codec));
    assert [] + b == b;
    var s1 := Put(s, i, Hearing(s.clients[i], b, 0));
    var p := Piece(Wish(codec), |b|);
    WishParses(codec);
    MovesAll(s1, codec);
    var s2 := HandlePiece(s1, i, p);
    assert b[|b|..] == [];
    NothingMore(s2, i);
    assert HandleMessages(s1, i, RX_CAPACITY) == HandleMessages(s2, i, RX_CAPACITY);
  }

  lemma WishParses(codec: byte)
    ensures NextPiece(Encode(Wish(codec)), RX_CAPACITY) == Piece(Wish(codec), |Encode(Wish(codec))|)
  {
    var b := Encode(Wish(codec));
    Le32RoundTrip(1);
    assert b[4..8] == Le32(1);
    assert b[8..9] == [codec];
  }

  lemma MovesAll(s: Stream, codec: byte)
    requires Untold(s)
    ensures var r := SwitchTo(AnnouncedCodec(s, codec), MAX_CLIENTS, codec);
            && Untold(r) && r.old3dsCodec == codec
            && forall j :: 0 <= j < MAX_CLIENTS ==> r.clients[j] == Moved(s.clients[j], codec)
  {
    hide Told;
    var s1 := AnnouncedCodec(s, codec);
    forall j | 0 <= j < MAX_CLIENTS
      ensures SwitchPeer(s1, s.clients[j], codec) == Moved(s.clients[j], codec)
    {
      NothingToTell(s1, Retuned(s.clients[j], codec, PredictiveCodec(codec)));
    }
  }

  lemma NothingMore(s: Stream, i: nat)
    requires Shape(s) && i < MAX_CLIENTS && s.clients[i].rx == []
    ensures HandleMessages(s, i, RX_CAPACITY) == s
  {
  }
}
