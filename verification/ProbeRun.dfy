/**
 Four steps from the empty table to a torn stream: a client connects, greets, takes all but the last
 byte of a frame, and is then quiet for three seconds.
 */
module ProbeRun {
  import opened Bytes
  import opened Wire
  import opened ClientModel
  import opened StreamModel
  import opened Framing
  import opened Broadcasting
  import opened Transport
  import opened Invariant
  import opened Scenes

  /** What a peer reads when the probe's first byte takes the picture's place. */
  const TORN: Message := Message(MSG_VIDEO, FLAG_KEYFRAME, [MSG_PING])

  /** After the reply, the socket takes eight bytes, is full once, then takes eight more. */
  const NET: seq<int> := [8, 0, 8]

  const CONNECT: Event := NativeArrives(MainDoor, 1, 0, [20] + NET)
  const GREET: Event := NativeBytes(0, Salute(0), 0, true)
  const SHOW: Event := Media(PICTURE, Some(STREAM_H264), AnyClient, ENVS)
  const WAIT: Event := Nothing(0, 3001)

  lemma TakesMostOfAFrame(s: Stream, ack: seq<byte>)
    requires Untold(s)
    requires var c := s.clients[0];
             c.seat == NO_SEAT.(used := true, done := true, control := true, codec := CODEC_H264, peer := 1)
             && c.feed == Feed(Out(NET, [], 0, ack, ack, [], true), false, []) && c.lastSeen == c.lastProbe == 0
    ensures Enabled(s, SHOW)
    ensures var r := Step(s, SHOW);
            var c := r.clients[0];
            var w := Encode(PICTURE);
            Shape(r) && c.seat == s.clients[0].seat && c.lastSeen == c.lastProbe == 0
            && c.feed.out == Out([8], w[8..], 9, ack, ack + w[..8], [Data(PICTURE)], true)
  {
    hide Broadcast, Encode;
    var c := s.clients[0];
    var w := Encode(PICTURE);
    BroadcastEach(s, PICTURE, Some(STREAM_H264), AnyClient, ENVS, 0);
    assert Flush(c.feed.out) == (c.feed.out, false);
    assert [] + w == w;
    var q := Queue(false, c.feed.out, PICTURE);
    assert q == Out(NET, w, 9, ack, ack, [Data(PICTURE)], true);
    WritesEight(q, w);
  }

  lemma WritesEight(q: Out, w: seq<byte>)
    requires |w| == 9 && q.tail == w && q.net == NET
    ensures Flush(q) == (q.(net := [8], wire := q.wire + w[..8], tail := w[8..]), false)
  {
    var o := q.(net := [0, 8], wire := q.wire + w[..8], tail := w[8..]);
    assert NET[1..] == [0, 8] && [0, 8][1..] == [8];
    assert Flush(q) == Flush(o);
    assert Flush(o) == (o.(net := [8]), false);
  }

  lemma IsProbed(s: Stream, o: Out)
    requires Shape(s) && s.clients[0].seat.used && !s.clients[0].seat.isWs && s.clients[0].feed.out == o
    requires s.clients[0].lastSeen == s.clients[0].lastProbe == 0 && o.net == [8]
    ensures Enabled(s, WAIT)
    ensures Step(s, WAIT).clients[0].feed.out.wire == o.wire + Encode(PING)
    ensures Step(s, WAIT).clients[0].feed.out.greeting == o.greeting
    ensures Step(s, WAIT).clients[0].feed.out.sent == o.sent + [Data(PING)]
  {
    hide Encode;
    var w := Encode(PING);
    assert w[..8] == w && w[8..] == [];
    assert [8][1..] == [];
    assert SendAll(o, w) == (o.(net := [], wire := o.wire + w), true);
  }

  /** The reader's view: the picture it was sent has become another. */
  lemma ReadsTorn(wire: seq<byte>)
    requires wire == Encode(PICTURE)[..8] + Encode(PING)
    ensures ReadAll(false, wire) == [Data(TORN)]
  {
    var zeros: seq<byte> := [0, 0, 0, 0, 0, 0, 0];
    assert wire == Written(false, Data(TORN)) + zeros;
    TakeOneWhole(false, Data(TORN), zeros);
    assert TakeOne(false, zeros).Incomplete?;
    assert wire[|Written(false, Data(TORN))|..] == zeros;
    assert ReadAll(false, zeros) == [];
  }

  /** The client connects and greets. */
  lemma Begins() returns (s: Stream, ack: seq<byte>)
    ensures Run(Initial(false), [CONNECT, GREET], s) && Untold(s) && |ack| == 20
    ensures var c := s.clients[0];
            c.seat == NO_SEAT.(used := true, done := true, control := true, codec := CODEC_H264, peer := 1)
            && c.feed == Feed(Out(NET, [], 0, ack, ack, [], true), false, []) && c.lastSeen == c.lastProbe == 0
  {
    hide Step, Salute;
    var s0 := Initial(false);
    Arrives(s0, 0, MainDoor, 1, [20] + NET);
    var s1 := Step(s0, CONNECT);
    assert Run(s0, [], s0);
    RunSnoc(s0, [], s0, CONNECT);
    ack := Greets(s1, 0, 0, NET);
    s := Step(s1, GREET);
    RunSnoc(s0, [] + [CONNECT], s1, GREET);
    assert [] + [CONNECT] + [GREET] == [CONNECT, GREET];
  }

  /**
   A run of the transport after which a greeted client has been sent a picture and a probe, and
   reads a different picture: the probe did not wait for the frame's last byte.
   */
  lemma ProbeTearsAFrame() returns (r: Stream)
    ensures Run(Initial(false), [CONNECT, GREET, SHOW, WAIT], r) && |r.clients| == MAX_CLIENTS
    ensures var o := r.clients[0].feed.out;
            o.sent == [Data(PICTURE), Data(PING)]
            && |o.greeting| == 20 && o.greeting <= o.wire
            && ReadAll(false, o.wire[|o.greeting|..]) == [Data(TORN)] && TORN != PICTURE
  {
    hide Step, Enabled, Encode, ReadAll, Initial, Salute;
    var s2, ack := Begins();
    TakesMostOfAFrame(s2, ack);
    var s3 := Step(s2, SHOW);
    var w := Encode(PICTURE);
    IsProbed(s3, s3.clients[0].feed.out);
    r := Step(s3, WAIT);
    RunSnoc(Initial(false), [CONNECT, GREET], s2, SHOW);
    RunSnoc(Initial(false), [CONNECT, GREET] + [SHOW], s3, WAIT);
    assert [CONNECT, GREET] + [SHOW] + [WAIT] == [CONNECT, GREET, SHOW, WAIT];
    assert (ack + w[..8]) + Encode(PING) == ack + (w[..8] + Encode(PING));
    assert (ack + (w[..8] + Encode(PING)))[20..] == w[..8] + Encode(PING);
    ReadsTorn(w[..8] + Encode(PING));
  }
}
