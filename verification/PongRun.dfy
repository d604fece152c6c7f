/**
 Three steps from the empty table to another torn stream: a browser connects, takes all but the last
 byte of a frame, and pings.
 */
module PongRun {
  import opened Bytes
  import opened Wire
  import opened ClientModel
  import opened StreamModel
  import opened Framing
  import opened Broadcasting
  import opened Transport
  import opened Invariant
  import opened Scenes

  /** What a browser reads when the pong's first byte takes the picture's place. */
  const TORN: Message := Message(MSG_VIDEO, FLAG_KEYFRAME, [WS_PONG])

  /** The socket takes the framed handshake reply, ten bytes of the frame, is full once, then two more. */
  const NET: seq<int> := [30, 10, 0, 2]

  const CONNECT: Event := BrowserArrives(true, 0, NET)
  const SHOW: Event := Media(PICTURE, Some(STREAM_WEB), AnyClient, ENVS)
  const PINGED: Event := BrowserPinged(0, [], 0)

  function Reply(ack: seq<byte>): Message {
    Message(MSG_HELLO_ACK, 0, ack)
  }

  /** A message of this many bytes goes out at once. */
  lemma SentAtOnce(o: Out, m: Message, more: seq<int>)
    requires |m.payload| == 20 && o.net == [30] + more && o.tail == []
    ensures var w := Wrap(true, m);
            |w| == 30
            && SendNow(true, o, m) == (PastQueue(o, o.(net := more, wire := o.wire + w), Data(m), true), true)
  {
    hide Encode;
    var w := Wrap(true, m);
    assert ([30] + more)[1..] == more;
    assert w[..30] == w && w[30..] == [];
    assert SendAll(o.(net := more, wire := o.wire + w), []).1;
  }

  lemma Connects(s: Stream) returns (ack: seq<byte>)
    requires s == Initial(false)
    ensures |ack| == 20
    ensures var r := Step(s, CONNECT);
            Shape(r) && r.clients[0].seat == BrowserSeat(true)
            && r.clients[0].feed == Feed(Out([10, 0, 2], [], 0, [], Wrap(true, Reply(ack)), [Data(Reply(ack))], true),
                                         false, [])
  {
    hide Ack, Counts, Wrap;
    assert FirstFree(s.clients) == 0;
    NobodyCounted(s.clients, 0);
    ack := Ack(true, 0, PictureWidth(s, STREAM_WEB), PictureHeight(s, STREAM_WEB), CODEC_H264, CODEC_OPUS, AUDIO_RATE);
    var o := FreshFeed(NET).out;
    assert NET == [30] + [10, 0, 2];
    SentAtOnce(o, Reply(ack), [10, 0, 2]);
    assert [] + Wrap(true, Reply(ack)) == Wrap(true, Reply(ack));
    assert [] + [Data(Reply(ack))] == [Data(Reply(ack))];
    var a := SendNow(true, o, Reply(ack));
    NothingToTell(s, Client(BrowserSeat(true), NO_FEED.(out := a.0), [], [], [], 0, 0));
  }

  lemma TakesMostOfAFrame(s: Stream, o: Out)
    requires Shape(s) && s.clients[0].seat == BrowserSeat(true) && s.clients[0].feed == Feed(o, false, [])
    requires o.net == [10, 0, 2] && o.tail == [] && o.cap == 0
    ensures Enabled(s, SHOW)
    ensures var r := Step(s, SHOW);
            var c := r.clients[0];
            var w := Wrap(true, PICTURE);
            |w| == 11 && Shape(r) && c.seat == s.clients[0].seat
            && c.feed.out == o.(net := [2], tail := w[10..], cap := 11, wire := o.wire + w[..10],
                                sent := o.sent + [Data(PICTURE)])
  {
    hide Broadcast, Encode;
    var w := Wrap(true, PICTURE);
    BroadcastEach(s, PICTURE, Some(STREAM_WEB), AnyClient, ENVS, 0);
    assert Flush(o) == (o, false);
    assert [] + w == w;
    var q := Queue(true, o, PICTURE);
    assert q == o.(tail := w, cap := 11, sent := o.sent + [Data(PICTURE)]);
    WritesTen(q, w);
  }

  lemma WritesTen(q: Out, w: seq<byte>)
    requires |w| == 11 && q.tail == w && q.net == [10, 0, 2]
    ensures Flush(q) == (q.(net := [2], wire := q.wire + w[..10], tail := w[10..]), false)
  {
    var o := q.(net := [0, 2], wire := q.wire + w[..10], tail := w[10..]);
    assert [10, 0, 2][1..] == [0, 2] && [0, 2][1..] == [2];
    assert Flush(q) == Flush(o);
    assert Flush(o) == (o.(net := [2]), false);
  }

  lemma IsAnswered(o: Out)
    requires o.net == [2]
    ensures AnswerPing(o, []).0.wire == o.wire + PongFrame([])
    ensures AnswerPing(o, []).0.sent == o.sent + [Pong([])]
  {
    var h := WsHeader(WS_PONG, 0);
    assert h[..2] == h && h[2..] == [];
    assert [2][1..] == [];
    assert SendAll(o, h) == (o.(net := [], wire := o.wire + h), true);
    assert h + [] == h;
  }

  /** The reader's view: after the reply, a picture that ends in the pong's first byte. */
  lemma ReadsTorn(reply: Message)
    requires |reply.payload| == 20
    ensures ReadAll(true, Wrap(true, reply) + Wrap(true, PICTURE)[..10] + PongFrame([])) == [Data(reply), Data(TORN)]
  {
    hide TakeOne;
    var r, t := Written(true, Data(reply)), Written(true, Data(TORN));
    var wire := Wrap(true, reply) + Wrap(true, PICTURE)[..10] + PongFrame([]);
    var rest: seq<byte> := [0];
    TornBytes();
    assert wire == r + (t + rest);
    TakeOneWhole(true, Data(reply), t + rest);
    TakeOneWhole(true, Data(TORN), rest);
    OneByteIsIncomplete();
    assert (r + (t + rest))[|r|..] == t + rest && (t + rest)[|t|..] == rest;
    assert ReadAll(true, rest) == [];
    assert ReadAll(true, t + rest) == [Data(TORN)] + [];
  }

  lemma TornBytes()
    ensures Wrap(true, PICTURE)[..10] + PongFrame([]) == Written(true, Data(TORN)) + [0]
  {
  }

  lemma OneByteIsIncomplete()
    ensures TakeOne(true, [0]) == Incomplete
  {
  }

  /** A run after which a browser has been sent a picture and a pong, and reads a different picture. */
  lemma PongTearsAFrame() returns (r: Stream, reply: Message)
    ensures Run(Initial(false), [CONNECT, SHOW, PINGED], r) && |r.clients| == MAX_CLIENTS
    ensures var o := r.clients[0].feed.out;
            o.sent == [Data(reply), Data(PICTURE), Pong([])] && o.greeting == []
            && ReadAll(true, o.wire) == [Data(reply), Data(TORN)] && TORN != PICTURE
  {
    hide Step, Initial, Wrap, PongFrame, AnswerPing, ReadAll;
    var s0 := Initial(false);
    var ack := Connects(s0);
    reply := Reply(ack);
    var s1 := Step(s0, CONNECT);
    var o := s1.clients[0].feed.out;
    TakesMostOfAFrame(s1, o);
    var s2 := Step(s1, SHOW);
    IsAnswered(s2.clients[0].feed.out);
    Pinged(s2);
    r := Step(s2, PINGED);
    assert Run(s0, [], s0);
    RunSnoc(s0, [], s0, CONNECT);
    RunSnoc(s0, [] + [CONNECT], s1, SHOW);
    RunSnoc(s0, [] + [CONNECT] + [SHOW], s2, PINGED);
    assert [] + [CONNECT] + [SHOW] + [PINGED] == [CONNECT, SHOW, PINGED];
    ReadsTorn(reply);
  }

  lemma Pinged(s: Stream)
    requires Shape(s) && s.clients[0].seat == BrowserSeat(true)
    ensures Enabled(s, PINGED)
    ensures Step(s, PINGED).clients[0].feed.out == AnswerPing(s.clients[0].feed.out, []).0
  {
  }
}
