/**
 What a newcomer is told, read back by a client's own reader: the answer to its greeting, the shape of
 its stream, and the settings it shares.
 */
module Readers {
  import opened Bytes
  import opened Wire
  import opened ClientModel
  import opened StreamModel

  function Number(low: byte, high: byte): nat {
    low as nat + 256 * high as nat
  }

  datatype Answer = Answer(plays: bool, flags: byte, width: nat, height: nat, video: byte, audio: byte, rate: nat)

  /** The twenty bytes of the answer, as a client lays them out; anything but version one and stereo is refused. */
  function ReadAnswer(b: seq<byte>): Option<Answer> {
    if |b| == 20 && b[0..6] == [0x43, 0x32, 0x53, 0x57, 1, 1] && b[6] <= 1 && b[16..20] == [2, 0, 0, 0] then
      Some(Answer(b[6] == 1, b[7], Number(b[8], b[9]), Number(b[10], b[11]), b[12], b[13], Number(b[14], b[15])))
    else None
  }

  datatype Picture = Picture(width: nat, height: nat, codec: byte)

  function ReadPicture(b: seq<byte>): Option<Picture> {
    if |b| == 8 && b[5..8] == [0, 0, 0] then Some(Picture(Number(b[0], b[1]), Number(b[2], b[3]), b[4])) else None
  }

  datatype Shared = Shared(width: nat, height: nat, fps: nat, kbps: nat, codec: byte, mjpeg: byte)

  function ReadShared(b: seq<byte>): Option<Shared> {
    if |b| == 12 && b[10..12] == [0, 0] then
      Some(Shared(Number(b[0], b[1]), Number(b[2], b[3]), Number(b[4], b[5]), Number(b[6], b[7]), b[8], b[9]))
    else None
  }

  predicate Short(n: nat) {
    n < 0x1_0000
  }

  lemma NumberReadsBack(n: nat)
    requires Short(n)
    ensures Number(Le16(n)[0], Le16(n)[1]) == n
  {
  }

  lemma AnswerReadsBack(a: Answer)
    requires Short(a.width) && Short(a.height) && Short(a.rate)
    ensures ReadAnswer(Ack(a.plays, a.flags, a.width, a.height, a.video, a.audio, a.rate)) == Some(a)
  {
    NumberReadsBack(a.width);
    NumberReadsBack(a.height);
    NumberReadsBack(a.rate);
    var b := Ack(a.plays, a.flags, a.width, a.height, a.video, a.audio, a.rate);
    assert b[0..6] == [0x43, 0x32, 0x53, 0x57, 1, 1] && b[16..20] == [2, 0, 0, 0];
  }

  lemma PictureReadsBack(p: Picture)
    requires Short(p.width) && Short(p.height)
    ensures ReadPicture(StreamInfo(p.width, p.height, p.codec)) == Some(p)
  {
    NumberReadsBack(p.width);
    NumberReadsBack(p.height);
    assert StreamInfo(p.width, p.height, p.codec)[5..8] == [0, 0, 0];
  }

  lemma SharedReadsBack(x: Shared)
    requires Short(x.width) && Short(x.height) && Short(x.fps) && Short(x.kbps)
    ensures ReadShared(SharedSettings(x.width, x.height, x.fps, x.kbps, x.codec, x.mjpeg)) == Some(x)
  {
    NumberReadsBack(x.width);
    NumberReadsBack(x.height);
    NumberReadsBack(x.fps);
    NumberReadsBack(x.kbps);
    assert SharedSettings(x.width, x.height, x.fps, x.kbps, x.codec, x.mjpeg)[10..12] == [0, 0];
  }

  /** A switch of the Old 3DS stream puts the new codec into the settings that are kept, and nothing else. */
  lemma SwitchedSettings(s: Stream, codec: byte, x: Shared)
    requires Shape(s) && s.groups[5].sharedKnown && ReadShared(s.groups[5].shared) == Some(x)
    ensures var g := AnnouncedCodec(s, codec).groups;
            ReadShared(g[5].shared) == Some(x.(codec := codec)) && forall k :: 0 <= k < 5 ==> g[k] == s.groups[k]
  {
    var b := s.groups[5].shared;
    assert b[8 := codec][10..12] == b[10..12];
  }

  // ------------------------------------------------------------------ what a greeting asks for

  /**
   The capability bits one by one: PCM, PCM by datagram, Opus by datagram, ADPCM by datagram. Who may have
   them, and which goes first when a client offers several.
   */
  lemma IntroducedByBits(udp: bool, c: Seat, pcm: bool, pcmUdp: bool, opusUdp: bool, adpcmUdp: bool, rest: nat,
                         answer: bool)
    ensures var caps := (if pcm then 1 else 0) + (if pcmUdp then 2 else 0) + (if opusUdp then 4 else 0)
                        + (if adpcmUdp then 8 else 0) + 16 * rest;
            var r := Introduced(udp, c, caps, answer);
            && r.pcmAudio == ((c.onWiiu || c.onOld3ds) && pcm)
            && r.pcmUdp == ((c.onWiiu || c.onOld3ds) && pcm && pcmUdp && udp)
            && r.opusUdp == (c.onOld3ds && !pcm && opusUdp && !adpcmUdp && udp)
            && r.adpcmUdp == (c.onOld3ds && !pcm && adpcmUdp && udp)
            && r.control == (answer || c.codec == 4)
            && r.codec == (if c.codec == 4 || c.codec == 6 || c.codec == 7 || c.codec == 9 || c.codec == 10
                           then c.codec else 3)
  {
    hide Bit;
    BitsApart(pcm, pcmUdp, opusUdp, adpcmUdp, rest);
  }

  lemma BitsApart(a: bool, b: bool, c: bool, d: bool, rest: nat)
    ensures var n := (if a then 1 else 0) + (if b then 2 else 0) + (if c then 4 else 0) + (if d then 8 else 0)
                     + 16 * rest;
            Bit(n, 1) == a && Bit(n, 2) == b && Bit(n, 4) == c && Bit(n, 8) == d
  {
    var n3 := (if d then 1 else 0) + 2 * rest;
    var n2 := (if c then 1 else 0) + 2 * n3;
    var n1 := (if b then 1 else 0) + 2 * n2;
    LowBit(d, rest);
    LowBit(c, n3);
    LowBit(b, n2);
    LowBit(a, n1);
    Halves((if a then 1 else 0) + 2 * n1);
  }

  lemma LowBit(b: bool, rest: nat)
    ensures var n := (if b then 1 else 0) + 2 * rest; n / 2 == rest && (n % 2 == 1 <==> b)
  {
  }

  lemma Halves(n: nat)
    ensures n / 4 == n / 2 / 2 && n / 8 == n / 2 / 2 / 2
  {
  }

  /** What the answer says: 24000 Hz ADPCM, PCM, or Opus at 48000, and which datagrams will come. */
  lemma AnswerFor(s: Stream, c: Seat, k: nat)
    requires Shape(s) && k == Slot(c)
    requires Short(s.width) && Short(s.height) && Short(s.groups[k].width) && Short(s.groups[k].height)
    ensures ReadAnswer(AckFor(s, c))
            == Some(Answer(c.control,
                           if c.pcmUdp && c.opusUdp && c.adpcmUdp then 7
                           else if c.pcmUdp && c.opusUdp then 3
                           else if c.pcmUdp && c.adpcmUdp then 5
                           else if c.opusUdp && c.adpcmUdp then 6
                           else if c.pcmUdp then 1 else if c.opusUdp then 2 else if c.adpcmUdp then 4 else 0,
                           if s.groups[k].known then s.groups[k].width else s.width,
                           if s.groups[k].known then s.groups[k].height else s.height,
                           c.codec,
                           if c.pcmAudio then 5 else if c.adpcmUdp then 8 else 2,
                           if c.adpcmUdp then 24000 else 48000))
  {
    hide Ack, ReadAnswer, Slot;
    AnswerReadsBack(Answer(c.control,
        (if c.pcmUdp then 1 else 0) + (if c.opusUdp then 2 else 0) + (if c.adpcmUdp then 4 else 0),
        PictureWidth(s, Slot(c)), PictureHeight(s, Slot(c)), c.codec,
        AudioCodec(c), if c.adpcmUdp then ADPCM_RATE else AUDIO_RATE));
  }

  // ------------------------------------------------------------------ what a newcomer is told

  /** A socket that takes the next few writes whole. */
  predicate Generous(net: seq<int>, n: nat) {
    |net| >= n && forall i :: 0 <= i < n ==> net[i] >= 30
  }

  lemma TakenWhole(o: Out, b: seq<byte>, n: nat)
    requires Generous(o.net, n) && n > 0 && 0 < |b| <= 30
    ensures SendAll(o, b) == (o.(net := o.net[1..], wire := o.wire + b), true)
    ensures Generous(o.net[1..], n - 1)
  {
    assert b[..|b|] == b && b[|b|..] == [];
    var o1 := o.(net := o.net[1..], wire := o.wire + b);
    assert SendAll(o1, []) == (o1, true);
  }

  lemma SentWhole(ws: bool, o: Out, m: Message, n: nat)
    requires Generous(o.net, n) && n > 0 && |m.payload| <= 20
    ensures var r := SendNow(ws, o, m);
            r.1 && r.0.sent == o.sent + [Data(m)] && Generous(r.0.net, n - 1) && r.0.wire == o.wire + Wrap(ws, m)
            && r.0.greeting == o.greeting
  {
    hide SendAll;
    TakenWhole(o, Wrap(ws, m), n);
  }

  /** What is known of a stream when somebody joins it: its shape, then its settings. */
  function News(g: Group, codec: byte): seq<Item> {
    (if g.known then [Data(Message(21, 0, StreamInfo(g.width, g.height, codec)))] else [])
    + (if g.sharedKnown then [Data(Message(26, 0, g.shared))] else [])
  }

  lemma ToldWhole(g: Group, codec: byte, ws: bool, o: Out)
    requires Generous(o.net, 2) && |g.shared| == 12
    ensures TellGroup(g, codec, ws, o).sent == o.sent + News(g, codec)
    ensures TellGroup(g, codec, ws, o).greeting == o.greeting
  {
    hide SendNow, StreamInfo;
    var m1, m2 := Message(MSG_STREAM_INFO, 0, StreamInfo(g.width, g.height, codec)), Message(MSG_SHARED, 0, g.shared);
    SentWhole(ws, o, m1, 2);
    var o1 := if g.known then SendNow(ws, o, m1).0 else o;
    SentWhole(ws, o1, m2, 1);
  }

  /** The stream a newcomer at a native port joins, and the codec it is told for it. */
  function Joins(c: Seat): nat {
    if c.onDrc then 3 else if c.onWiiu then 4 else if c.onOld3ds then 5 else 1
  }

  function JoinsCodec(s: Stream, c: Seat): byte {
    if c.onDrc then 4 else if c.onOld3ds then s.old3dsCodec else 3
  }

  /** A seat at the table that has not greeted yet. */
  predicate Newcomer(c: Seat) {
    && c.used && !c.done && !c.isWs
    && !(c.onDrc && c.onWiiu) && !(c.onDrc && c.onOld3ds) && !(c.onWiiu && c.onOld3ds)
    && (if c.onDrc then c.codec == 4 else if c.onOld3ds then Old3dsCodec(c.codec) else c.codec == 0 || c.codec == 3)
  }

  /**
   A native client that is accepted and whose socket takes what it is given is answered with the shape of the
   stream its port belongs to, and is then told that stream's shape and settings -- not another stream's.
   */
  lemma NewcomerIsTold(s: Stream, i: nat, answer: bool)
    requires Shape(s) && i < MAX_CLIENTS && Newcomer(s.clients[i].seat) && Generous(s.clients[i].feed.out.net, 3)
    requires ParseHello(s.clients[i].seat.onOld3ds, s.clients[i].rx).HelloAccepted?
    requires Short(s.width) && Short(s.height)
    requires var g := s.groups[Joins(s.clients[i].seat)]; Short(g.width) && Short(g.height)
    ensures var c, r := s.clients[i], HandleHello(s, i, answer).clients[i];
            var g := s.groups[Joins(c.seat)];
            var a := ReadAnswer(r.feed.out.greeting);
            && r.seat.used && r.seat.done && a.Some?
            && a.value.plays == (c.seat.onDrc || answer) == r.seat.control
            && a.value.width == (if g.known then g.width else s.width)
            && a.value.height == (if g.known then g.height else s.height)
            && r.feed.out.sent == c.feed.out.sent + News(g, JoinsCodec(s, c.seat))
            && r.feed.waiting == (c.seat.onOld3ds && s.old3dsCodec in {7, 9, 10})
  {
    hide Ack, ReadAnswer, SendAll, TellGroup, News, ParseHello, Generous, Bit, Recount;
    var c := s.clients[i];
    var h := ParseHello(c.seat.onOld3ds, c.rx);
    var seat := Introduced(s.udp, c.seat, h.caps, answer);
    assert Slot(seat) == Joins(c.seat) && SlotCodec(s, Slot(seat)) == JoinsCodec(s, c.seat);
    AnswerFor(s, seat, Slot(seat));
    var ack := AckFor(s, seat);
    TakenWhole(c.feed.out, ack, 3);
    var w := Welcomed(c, h.used, seat, ack, seat.onOld3ds && PredictiveCodec(s.old3dsCodec));
    ToldWhole(s.groups[Slot(seat)], SlotCodec(s, Slot(seat)), false, w.0.feed.out);
    RecountSame(Put(s, i, Told(s, w.0)));
  }

  lemma RecountSame(s: Stream)
    ensures Recount(s).clients == s.clients
  {
  }

  /** The stream a greeted client is on once it has been given a codec. */
  function Moves(c: Seat, codec: byte): nat {
    if c.isWs then 2 else if c.onDrc then 3 else if c.onWiiu then 4
    else if codec == 4 then 3 else if codec == 3 then 1 else 0
  }

  /** A client that is given the codec it asks for is told about the stream that puts it on. */
  lemma RetunedIsTold(s: Stream, i: nat, m: Message)
    requires Shape(s) && i < MAX_CLIENTS && !s.clients[i].seat.onOld3ds && Generous(s.clients[i].feed.out.net, 2)
    requires m.kind == 20 && |m.payload| == 1 && m.payload[0] != s.clients[i].seat.codec
    requires m.payload[0] == 1 || m.payload[0] == 3 || (m.payload[0] == 4 && s.drcAvailable)
    ensures var c, r := s.clients[i], Dispatch(s, i, m).0.clients[i];
            var k := Moves(c.seat, m.payload[0]);
            && r.seat == c.seat.(codec := m.payload[0])
            && r.feed.out.sent == c.feed.out.sent + News(s.groups[k], if k == 0 then 1 else if k == 3 then 4 else 3)
  {
    hide TellGroup, News, Generous, Slot, SlotCodec, SwitchTo, AnnouncedCodec, Moves;
    var c := Retuned(s.clients[i], m.payload[0], s.clients[i].feed.waiting);
    MovesThere(s, s.clients[i].seat, m.payload[0]);
    ToldWhole(s.groups[Slot(c.seat)], SlotCodec(s, Slot(c.seat)), c.seat.isWs, c.feed.out);
  }

  lemma MovesThere(s: Stream, c: Seat, codec: byte)
    requires !c.onOld3ds
    ensures var k := Slot(c.(codec := codec));
            k == Moves(c, codec) && SlotCodec(s, k) == if k == 0 then 1 else if k == 3 then 4 else 3
  {
  }

  /** And when one Old 3DS moves the stream, every greeted one of them is told the new codec. */
  lemma SwitchedAreTold(s: Stream, i: nat, m: Message, j: nat)
    requires Shape(s) && i < MAX_CLIENTS && j < MAX_CLIENTS && s.clients[i].seat.onOld3ds
    requires m.kind == 20 && |m.payload| == 1 && m.payload[0] in {6, 7, 9, 10} && m.payload[0] != s.old3dsCodec
    requires var c := s.clients[j];
             && c.seat.used && c.seat.done && c.seat.onOld3ds && !c.seat.isWs && !c.seat.onDrc && !c.seat.onWiiu
             && Generous(c.feed.out.net, 2)
    ensures Dispatch(s, i, m).0.clients[j].feed.out.sent
            == s.clients[j].feed.out.sent + News(AnnouncedCodec(s, m.payload[0]).groups[5], m.payload[0])
  {
    hide TellGroup, News, Generous;
    var s1 := AnnouncedCodec(s, m.payload[0]);
    var c := Retuned(s.clients[j], m.payload[0], PredictiveCodec(m.payload[0]));
    ToldWhole(s1.groups[5], m.payload[0], false, c.feed.out);
  }

  /** A browser that is taken in reads the same about the web stream, as messages, the answer first. */
  lemma BrowserIsTold(s: Stream, control: bool, now: nat, net: seq<int>)
    requires Shape(s) && Generous(net, 3) && Adopt(s, control, now, net).1
    requires Short(s.width) && Short(s.height) && Short(s.groups[2].width) && Short(s.groups[2].height)
    ensures var r := Adopt(s, control, now, net).0.clients[FirstFree(s.clients)];
            var g := s.groups[2];
            var a := Answer(control, 0, if g.known then g.width else s.width,
                            if g.known then g.height else s.height, 3, 2, 48000);
            && r.seat.used && r.seat.done && r.seat.isWs && r.seat.control == control
            && exists b :: ReadAnswer(b) == Some(a) && r.feed.out.sent == [Data(Message(27, 0, b))] + News(g, 3)
  {
    hide Ack, ReadAnswer, SendNow, TellGroup, News, Generous, Recount, Browsers, FirstFree;
    var b := Ack(control, 0, PictureWidth(s, STREAM_WEB), PictureHeight(s, STREAM_WEB), CODEC_H264, CODEC_OPUS,
                 AUDIO_RATE);
    AnswerReadsBack(Answer(control, 0, PictureWidth(s, STREAM_WEB), PictureHeight(s, STREAM_WEB), 3, 2, 48000));
    var m := Message(MSG_HELLO_ACK, 0, b);
    SentWhole(true, FreshFeed(net).out, m, 3);
    var o := SendNow(true, FreshFeed(net).out, m).0;
    ToldWhole(s.groups[2], 3, true, o);
    var c := Client(BrowserSeat(control), NO_FEED.(out := o), [], [], [], now, 0);
    RecountSame(Put(s, FirstFree(s.clients), Told(s, c)));
  }
}
