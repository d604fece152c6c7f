/**
 The whole native transport as a value: the client table, what each stream was last told, and
 the audience counts the pipeline reads. Every function below is one pass of the transport that
 runs under the client lock.
 */
module StreamModel {
  import opened Bytes
  import opened Wire
  import opened ClientModel

  const MAX_CLIENTS: nat := 8
  const MAX_BROWSERS: nat := 4
  const RX_CAPACITY: nat := 512
  const HELLO_SIZE: nat := 8
  const MAGIC: nat := 0x57533243
  const VERSION: byte := 1
  const IDLE_TIMEOUT_MS: nat := 10000
  const IDLE_PROBE_MS: nat := 3000
  const AUDIO_RATE: nat := 48000
  const ADPCM_RATE: nat := 24000

  /** What one stream's clients were last told. `shared` is the twelve-byte settings message. */
  datatype Group = Group(width: nat, height: nat, known: bool, shared: seq<byte>, sharedKnown: bool)

  datatype Stream = Stream(
    clients: seq<Client>,
    largest: seq<nat>,
    maxFrame: nat,
    old3dsCodec: byte,
    live: seq<nat>,
    dirty: bool,
    drcAvailable: bool,
    udp: bool,
    width: nat,
    height: nat,
    groups: seq<Group>)

  predicate Shape(s: Stream) {
    && |s.clients| == MAX_CLIENTS
    && |s.largest| == STREAM_COUNT
    && |s.live| == STREAM_COUNT
    && |s.groups| == STREAM_COUNT
    && (forall k :: 0 <= k < STREAM_COUNT ==> |s.groups[k].shared| == 12)
  }

  // ------------------------------------------------------------------ audience counts

  function Count(cs: seq<Client>, slot: nat): (n: nat)
    ensures n <= |cs|
  {
    if cs == [] then 0
    else (if OnStream(cs[|cs| - 1].seat, slot) then 1 else 0) + Count(cs[..|cs| - 1], slot)
  }

  function Counts(cs: seq<Client>): (n: seq<nat>)
    ensures |n| == STREAM_COUNT
    ensures forall k :: 0 <= k < STREAM_COUNT ==> n[k] == Count(cs, k)
  {
    seq(STREAM_COUNT, k requires 0 <= k < STREAM_COUNT => Count(cs, k))
  }

  function Recount(s: Stream): (r: Stream)
    ensures r == s.(live := r.live, dirty := r.dirty)
    ensures Shape(s) ==> Shape(r)
  {
    var n := Counts(s.clients);
    if n == s.live then s else s.(live := n, dirty := true)
  }

  function Put(s: Stream, i: nat, c: Client): (r: Stream)
    requires i < |s.clients|
    ensures r == s.(clients := r.clients) && |r.clients| == |s.clients|
  {
    s.(clients := s.clients[i := c])
  }

  lemma PutTwice(s: Stream, i: nat, a: Client, b: Client)
    requires i < |s.clients|
    ensures Put(Put(s, i, a), i, b) == Put(s, i, b)
  {
    assert s.clients[i := a][i := b] == s.clients[i := b];
  }

  function Drop(s: Stream, i: nat): (r: Stream)
    requires i < |s.clients|
    ensures r == s.(clients := r.clients, live := r.live, dirty := r.dirty)
    ensures |r.clients| == |s.clients|
    ensures Shape(s) ==> Shape(r)
  {
    if s.clients[i].seat.used then Recount(Put(s, i, NO_CLIENT)) else s
  }

  /** What the clients on a stream are asking for: the first one's codec, or none. */
  function StreamCodec(cs: seq<Client>, slot: nat): (codec: Option<byte>)
    ensures codec.None? ==> forall i :: 0 <= i < |cs| ==> !OnStream(cs[i].seat, slot)
    ensures codec.Some? ==> exists i :: 0 <= i < |cs| && OnStream(cs[i].seat, slot) && cs[i].seat.codec == codec.value
  {
    if cs == [] then None
    else
      var n := |cs| - 1;
      var before := StreamCodec(cs[..n], slot);
      assert forall i :: 0 <= i < n ==> cs[..n][i] == cs[i];
      if before.Some? then before
      else if OnStream(cs[n].seat, slot) then Some(cs[n].seat.codec) else None
  }

  lemma NoCodecYet(cs: seq<Client>, slot: nat)
    ensures StreamCodec(cs[..0], slot) == None
  {
  }

  lemma CodecNext(cs: seq<Client>, slot: nat, i: nat)
    requires i < |cs|
    ensures StreamCodec(cs[..i + 1], slot)
            == if StreamCodec(cs[..i], slot).Some? then StreamCodec(cs[..i], slot)
               else if OnStream(cs[i].seat, slot) then Some(cs[i].seat.codec) else None
  {
    assert cs[..i + 1][..i] == cs[..i];
  }

  // ------------------------------------------------------------------ broadcast

  function DeliverAt(s: Stream, i: nat, m: Message, slot: Option<nat>, filter: AudioFilter, e: Env)
    : (r: Stream)
    requires i < |s.clients|
    ensures r == s.(clients := r.clients, live := r.live, dirty := r.dirty)
    ensures |r.clients| == |s.clients|
    ensures Shape(s) ==> Shape(r)
  {
    var c := s.clients[i];
    var d := Deliver(c.seat, c.feed, m, slot, filter, s.maxFrame, e);
    if d.1.Dropped? then Drop(s, i) else Put(s, i, c.(feed := d.0))
  }

  /** The broadcast loop after its first n clients. */
  function DeliverTo(s: Stream, n: nat, m: Message, slot: Option<nat>, filter: AudioFilter, es: seq<Env>)
    : (r: Stream)
    requires n <= |s.clients| == |es|
    ensures r == s.(clients := r.clients, live := r.live, dirty := r.dirty)
    ensures |r.clients| == |s.clients|
    ensures Shape(s) ==> Shape(r)
  {
    if n == 0 then s
    else DeliverAt(DeliverTo(s, n - 1, m, slot, filter, es), n - 1, m, slot, filter, es[n - 1])
  }

  function Sized(s: Stream, p: Message, slot: Option<nat>): (r: Stream)
    requires Shape(s)
    requires slot.Some? ==> slot.value < STREAM_COUNT
    ensures Shape(r) && r == s.(largest := r.largest, maxFrame := r.maxFrame)
  {
    if p.kind == MSG_VIDEO && slot.Some? then
      var l := Decayed(s.largest[slot.value], |p.payload|);
      s.(largest := s.largest[slot.value := l], maxFrame := l)
    else s
  }

  /** A frame over the payload limit reaches nobody; only the history notices. */
  function Missed(c: Client, p: Message, slot: Option<nat>): Client {
    if Eligible(c.seat, slot, AnyClient)
    then c.(feed := Logged(c.feed, Message(p.kind, p.flags, []), false)) else c
  }

  function MissedByAll(s: Stream, p: Message, slot: Option<nat>): (r: Stream)
    ensures r == s.(clients := r.clients) && |r.clients| == |s.clients|
  {
    s.(clients := seq(|s.clients|, i requires 0 <= i < |s.clients| => Missed(s.clients[i], p, slot)))
  }

  function Broadcast(s: Stream, p: Message, slot: Option<nat>, filter: AudioFilter, es: seq<Env>): (r: Stream)
    requires Shape(s) && |es| == MAX_CLIENTS
    requires slot.Some? ==> slot.value < STREAM_COUNT
    ensures Shape(r)
  {
    if |p.payload| > MAX_PAYLOAD then MissedByAll(s, p, slot)
    else DeliverTo(Sized(s, p, slot), MAX_CLIENTS, p, slot, filter, es)
  }

  // ------------------------------------------------------------------ announcements

  function SlotCodec(s: Stream, slot: nat): byte {
    if slot == STREAM_VP8 then CODEC_VP8
    else if slot == STREAM_DRC then CODEC_DRC_H264
    else if slot == STREAM_OLD3DS then s.old3dsCodec
    else CODEC_H264
  }

  function StreamInfo(width: nat, height: nat, codec: byte): (b: seq<byte>)
    ensures |b| == 8
  {
    Le16(width) + Le16(height) + [codec, 0, 0, 0]
  }

  function SharedSettings(width: nat, height: nat, fps: nat, kbps: nat, codec: byte, mjpeg: byte)
    : (b: seq<byte>)
    ensures |b| == 12
  {
    Le16(width) + Le16(height) + Le16(fps) + Le16(kbps) + [codec, mjpeg, 0, 0]
  }

  function AnnounceStream(s: Stream, slot: nat, width: nat, height: nat, es: seq<Env>): (r: Stream)
    requires Shape(s) && |es| == MAX_CLIENTS && slot < STREAM_COUNT
    ensures Shape(r)
  {
    var g := s.groups[slot].(width := width, height := height, known := true);
    var s1 := s.(groups := s.groups[slot := g]);
    Broadcast(s1, Message(MSG_STREAM_INFO, 0, StreamInfo(width, height, SlotCodec(s, slot))),
              Some(slot), AnyClient, es)
  }

  function AnnounceShared(s: Stream, slot: nat, width: nat, height: nat, fps: nat, kbps: nat,
                          mjpeg: byte, es: seq<Env>): (r: Stream)
    requires Shape(s) && |es| == MAX_CLIENTS && slot < STREAM_COUNT
    ensures Shape(r)
  {
    var sh := SharedSettings(width, height, fps, kbps, SlotCodec(s, slot), mjpeg);
    var s1 := s.(groups := s.groups[slot := s.groups[slot].(shared := sh, sharedKnown := true)]);
    Broadcast(s1, Message(MSG_SHARED, 0, sh), Some(slot), AnyClient, es)
  }

  /** Sends a client the shape and the settings of a stream; a failed write is not noticed. */
  function TellGroup(g: Group, codec: byte, ws: bool, o: Out): Out {
    var o1 := if g.known
              then SendNow(ws, o, Message(MSG_STREAM_INFO, 0, StreamInfo(g.width, g.height, codec))).0
              else o;
    if g.sharedKnown then SendNow(ws, o1, Message(MSG_SHARED, 0, g.shared)).0 else o1
  }

  function GroupState(s: Stream, c: Seat, o: Out): Out
    requires Shape(s)
  {
    TellGroup(s.groups[Slot(c)], SlotCodec(s, Slot(c)), c.isWs, o)
  }

  function Told(s: Stream, c: Client): Client
    requires Shape(s)
  {
    c.(feed := c.feed.(out := GroupState(s, c.seat, c.feed.out)))
  }

  /** What a client is told depends on the announcements, not on the other clients. */
  lemma ToldSame(s: Stream, r: Stream, c: Client)
    requires Shape(s) && Shape(r) && s.groups == r.groups && s.old3dsCodec == r.old3dsCodec
    ensures Told(s, c) == Told(r, c)
  {
    hide SendNow, StreamInfo;
  }

  // ------------------------------------------------------------------ arrivals

  function Browsers(cs: seq<Client>): (n: nat)
    ensures n <= |cs|
  {
    if cs == [] then 0
    else (if cs[|cs| - 1].seat.used && cs[|cs| - 1].seat.isWs then 1 else 0) + Browsers(cs[..|cs| - 1])
  }

  lemma NoBrowsersYet(cs: seq<Client>)
    ensures Browsers(cs[..0]) == 0
  {
  }

  lemma BrowsersNext(cs: seq<Client>, i: nat)
    requires i < |cs|
    ensures Browsers(cs[..i + 1])
            == Browsers(cs[..i]) + if cs[i].seat.used && cs[i].seat.isWs then 1 else 0
  {
    assert cs[..i + 1][..i] == cs[..i];
  }

  /** The first free entry, or the table's length. */
  function FirstFree(cs: seq<Client>): (n: nat)
    ensures n <= |cs|
    ensures n < |cs| ==> !cs[n].seat.used
    ensures forall i :: 0 <= i < n ==> cs[i].seat.used
  {
    if cs == [] then 0
    else if !cs[0].seat.used then 0
    else
      var n := 1 + FirstFree(cs[1..]);
      assert forall i :: 1 <= i < n ==> cs[i] == cs[1..][i - 1];
      n
  }

  function Ack(control: bool, reserved: byte, width: nat, height: nat, video: byte, audio: byte, rate: nat)
    : (b: seq<byte>)
    ensures |b| == 20
  {
    Le32(MAGIC) + [VERSION, 1, if control then 1 else 0, reserved] + Le16(width) + Le16(height)
    + [video, audio] + Le16(rate) + [2, 0, 0, 0]
  }

  function PictureWidth(s: Stream, slot: nat): nat
    requires Shape(s) && slot < STREAM_COUNT
  {
    if s.groups[slot].known then s.groups[slot].width else s.width
  }

  function PictureHeight(s: Stream, slot: nat): nat
    requires Shape(s) && slot < STREAM_COUNT
  {
    if s.groups[slot].known then s.groups[slot].height else s.height
  }

  function FreshFeed(net: seq<int>): Feed {
    NO_FEED.(out := NO_FEED.out.(net := net))
  }

  function BrowserSeat(control: bool): Seat {
    NO_SEAT.(used := true, done := true, isWs := true, control := control, codec := CODEC_H264)
  }

  /** Seats a browser in a free entry and answers it; false means the answer could not be sent. */
  function SeatBrowser(s: Stream, i: nat, control: bool, now: nat, net: seq<int>): (r: (Stream, bool))
    requires Shape(s) && i < MAX_CLIENTS
    ensures Shape(r.0)
  {
    var ack := Ack(control, 0, PictureWidth(s, STREAM_WEB), PictureHeight(s, STREAM_WEB),
                   CODEC_H264, CODEC_OPUS, AUDIO_RATE);
    var a := SendNow(true, FreshFeed(net).out, Message(MSG_HELLO_ACK, 0, ack));
    if !a.1 then (Put(s, i, NO_CLIENT), false)
    else (Recount(Put(s, i, Told(s, Client(BrowserSeat(control), NO_FEED.(out := a.0), [], [], [], now, 0)))), true)
  }

  /** Takes over an upgraded browser connection; false means it was refused. */
  function Adopt(s: Stream, control: bool, now: nat, net: seq<int>): (r: (Stream, bool))
    requires Shape(s)
    ensures Shape(r.0)
  {
    var i := FirstFree(s.clients);
    if i == MAX_CLIENTS || Browsers(s.clients) >= MAX_BROWSERS then (s, false)
    else SeatBrowser(s, i, control, now, net)
  }

  datatype Door = MainDoor | GamepadDoor | WiiuDoor | Old3dsDoor

  predicate SameConsole(c: Seat, peer: nat) {
    c.used && c.onWiiu && c.peer == peer
  }

  /** The eviction loop after its first n clients: one console holds one connection. */
  function EvictTo(s: Stream, n: nat, peer: nat): (r: Stream)
    requires n <= |s.clients|
    ensures r == s.(clients := r.clients, live := r.live, dirty := r.dirty)
    ensures |r.clients| == |s.clients|
    ensures Shape(s) ==> Shape(r)
  {
    if n == 0 then s
    else
      var s1 := EvictTo(s, n - 1, peer);
      if SameConsole(s1.clients[n - 1].seat, peer) then Drop(s1, n - 1) else s1
  }

  function NewcomerSeat(old3dsCodec: byte, door: Door, peer: nat): Seat {
    NO_SEAT.(used := true, peer := peer,
             codec := match door
                      case MainDoor => 0
                      case GamepadDoor => CODEC_DRC_H264
                      case WiiuDoor => CODEC_H264
                      case Old3dsDoor => old3dsCodec,
             onDrc := door.GamepadDoor?, onWiiu := door.WiiuDoor?, onOld3ds := door.Old3dsDoor?)
  }

  function Accept(s: Stream, door: Door, peer: nat, now: nat, net: seq<int>): (r: Stream)
    requires Shape(s)
    ensures Shape(r)
  {
    var s1 := if door.WiiuDoor? && peer != 0 then EvictTo(s, MAX_CLIENTS, peer) else s;
    var i := FirstFree(s1.clients);
    if i == MAX_CLIENTS then s1
    else Put(s1, i, Client(NewcomerSeat(s1.old3dsCodec, door, peer), FreshFeed(net), [], [], [], now, 0))
  }

  // ------------------------------------------------------------------ the greeting

  predicate Bit(n: nat, bit: nat)
    requires bit > 0
  {
    n / bit % 2 == 1
  }

  datatype Hello = HelloIncomplete | HelloRefused(used: nat) | HelloAccepted(used: nat, caps: nat)

  /** The greeting at the front of a native client's byte stream. */
  function ParseHello(old3ds: bool, b: seq<byte>): (h: Hello)
    ensures !h.HelloIncomplete? ==> HELLO_SIZE <= h.used <= |b|
  {
    if |b| < HELLO_SIZE then HelloIncomplete
    else
      var used: nat := HELLO_SIZE + b[5] as int;
      if |b| < used then HelloIncomplete
      else
        var caps := FromLe16(b[6..8]);
        if FromLe32(b[0..4]) != MAGIC || b[4] != VERSION then HelloRefused(used)
        else if old3ds && !Bit(caps, 0x8000) then HelloRefused(used)
        else HelloAccepted(used, caps)
  }

  /** The seat once its greeting is accepted and before it is answered. */
  function Introduced(udp: bool, c: Seat, caps: nat, answer: bool): Seat {
    var pcm := (c.onWiiu || c.onOld3ds) && Bit(caps, 1);
    c.(control := c.codec == CODEC_DRC_H264 || answer,
       codec := if c.codec != CODEC_DRC_H264 && !Old3dsCodec(c.codec) then CODEC_H264 else c.codec,
       pcmAudio := pcm,
       pcmUdp := pcm && udp && Bit(caps, 2),
       opusUdp := !pcm && c.onOld3ds && udp && Bit(caps, 4) && !Bit(caps, 8),
       adpcmUdp := !pcm && c.onOld3ds && udp && Bit(caps, 8))
  }

  /** The audio a client is promised. */
  function AudioCodec(c: Seat): byte {
    if c.pcmAudio then CODEC_PCM else if c.adpcmUdp then CODEC_OLD3DS_ADPCM else CODEC_OPUS
  }

  function AckFor(s: Stream, c: Seat): (b: seq<byte>)
    requires Shape(s)
  {
    Ack(c.control,
        (if c.pcmUdp then 1 else 0) + (if c.opusUdp then 2 else 0) + (if c.adpcmUdp then 4 else 0),
        PictureWidth(s, Slot(c)), PictureHeight(s, Slot(c)), c.codec,
        AudioCodec(c), if c.adpcmUdp then ADPCM_RATE else AUDIO_RATE)
  }

  /** The client after its accepted greeting is answered; the flag says the answer was written. */
  function Welcomed(c: Client, n: nat, seat: Seat, ack: seq<byte>, parked: bool): (Client, bool)
    requires n <= |c.rx|
  {
    var a := Greet(c.feed.out, ack);
    (c.(seat := seat.(done := true), rx := c.rx[n..], feed := c.feed.(out := a.0, waiting := parked)), a.1)
  }

  function HandleHello(s: Stream, i: nat, answer: bool): (r: Stream)
    requires Shape(s) && i < MAX_CLIENTS
    ensures Shape(r)
  {
    var c := s.clients[i];
    match ParseHello(c.seat.onOld3ds, c.rx)
    case HelloIncomplete => s
    case HelloRefused(_) => Drop(s, i)
    case HelloAccepted(n, caps) =>
      var seat := Introduced(s.udp, c.seat, caps, answer);
      var w := Welcomed(c, n, seat, AckFor(s, seat), seat.onOld3ds && PredictiveCodec(s.old3dsCodec));
      if !w.1 then Drop(s, i) else Recount(Put(s, i, Told(s, w.0)))
  }

  // ------------------------------------------------------------------ messages from a client

  function Retuned(c: Client, codec: byte, waiting: bool): Client {
    c.(seat := c.seat.(codec := codec), feed := c.feed.(waiting := waiting, log := []))
  }

  /** One peer of the loop that moves every Old 3DS client to a new codec. */
  function SwitchPeer(s: Stream, c: Client, codec: byte): (r: Client)
    requires Shape(s)
  {
    if c.seat.used && c.seat.done && c.seat.onOld3ds
    then Told(s, Retuned(c, codec, PredictiveCodec(codec)))
    else c
  }

  lemma SwitchPeerSame(s: Stream, r: Stream, c: Client, codec: byte)
    requires Shape(s) && Shape(r) && s.groups == r.groups && s.old3dsCodec == r.old3dsCodec
    ensures SwitchPeer(s, c, codec) == SwitchPeer(r, c, codec)
  {
    hide Told;
    ToldSame(s, r, Retuned(c, codec, PredictiveCodec(codec)));
  }

  function SwitchTo(s: Stream, n: nat, codec: byte): (r: Stream)
    requires Shape(s) && n <= MAX_CLIENTS
    ensures r == s.(clients := r.clients) && |r.clients| == |s.clients|
    ensures forall j :: 0 <= j < MAX_CLIENTS ==>
              r.clients[j] == if j < n then SwitchPeer(s, s.clients[j], codec) else s.clients[j]
  {
    if n == 0 then s
    else
      var s1 := SwitchTo(s, n - 1, codec);
      Put(s1, n - 1, SwitchPeer(s, s.clients[n - 1], codec))
  }

  function AnnouncedCodec(s: Stream, codec: byte): (r: Stream)
    requires Shape(s)
    ensures Shape(r) && r == s.(old3dsCodec := codec, groups := r.groups)
  {
    var g := s.groups[STREAM_OLD3DS];
    s.(old3dsCodec := codec,
       groups := if g.sharedKnown
                 then s.groups[STREAM_OLD3DS := g.(shared := g.shared[8 := codec])] else s.groups)
  }

  predicate WantsOld3dsCodec(s: Stream, m: Message) {
    |m.payload| == 1 && Old3dsCodec(m.payload[0]) && s.old3dsCodec != m.payload[0]
  }

  predicate WantsCodec(s: Stream, c: Seat, m: Message) {
    && |m.payload| == 1
    && (m.payload[0] == CODEC_VP8 || m.payload[0] == CODEC_H264
        || (m.payload[0] == CODEC_DRC_H264 && s.drcAvailable))
    && c.codec != m.payload[0]
  }

  /** Acts on one message, and says whether a codec moved. Only a codec request changes this
      transport's own state; input, HOME, wake, reset and the rest go to other parts of the host. */
  function Dispatch(s: Stream, i: nat, m: Message): (r: (Stream, bool))
    requires Shape(s) && i < MAX_CLIENTS
    ensures Shape(r.0) && r.0.live == s.live && r.0.dirty == s.dirty
    ensures r.0.clients[i].rx == s.clients[i].rx && r.0.clients[i].received == s.clients[i].received
  {
    var c := s.clients[i];
    if m.kind != MSG_CODEC then (s, false)
    else if c.seat.onOld3ds then
      if WantsOld3dsCodec(s, m)
      then (SwitchTo(AnnouncedCodec(s, m.payload[0]), MAX_CLIENTS, m.payload[0]), true)
      else (s, false)
    else if WantsCodec(s, c.seat, m) then
      (Put(s, i, Told(s, Retuned(c, m.payload[0], c.feed.waiting))), true)
    else (s, false)
  }

  datatype Piece = NeedMore | TooBig | Piece(message: Message, used: nat)

  /** The message at the front of a receive buffer of the given capacity. */
  function NextPiece(b: seq<byte>, capacity: nat): (p: Piece)
    requires capacity >= HEADER_SIZE
    ensures p.Piece? ==> HEADER_SIZE <= p.used <= |b| && p.used == HEADER_SIZE + |p.message.payload|
  {
    if |b| < HEADER_SIZE then NeedMore
    else
      var size := FromLe32(b[4..8]);
      if size > capacity - HEADER_SIZE then TooBig
      else if |b| < HEADER_SIZE + size then NeedMore
      else Piece(Message(b[0], b[1], b[HEADER_SIZE..HEADER_SIZE + size]), HEADER_SIZE + size)
  }

  /** The client with its front message taken out of the buffer. */
  function AfterPiece(c: Client, p: Piece): Client
    requires p.Piece? && p.used <= |c.rx|
  {
    c.(rx := c.rx[p.used..], received := c.received + [p.message])
  }

  /** One turn of the message loop: the message acted on, then taken out, then any recount. */
  function HandlePiece(s: Stream, i: nat, p: Piece): (r: Stream)
    requires Shape(s) && i < MAX_CLIENTS && p.Piece? && HEADER_SIZE <= p.used <= |s.clients[i].rx|
    ensures Shape(r) && |r.clients[i].rx| < |s.clients[i].rx|
  {
    var d := Dispatch(s, i, p.message);
    var s1 := Put(d.0, i, AfterPiece(d.0.clients[i], p));
    if d.1 then Recount(s1) else s1
  }

  /** The message loop: everything complete at the front of the buffer, in order. */
  function HandleMessages(s: Stream, i: nat, capacity: nat): (r: Stream)
    requires Shape(s) && i < MAX_CLIENTS && HEADER_SIZE <= capacity
    ensures Shape(r)
    decreases |s.clients[i].rx|
  {
    var p := NextPiece(s.clients[i].rx, capacity);
    match p
    case NeedMore => s
    case TooBig => Drop(s, i)
    case Piece(_, _) => HandleMessages(HandlePiece(s, i, p), i, capacity)
  }

  function Hearing(c: Client, data: seq<byte>, now: nat): Client {
    c.(rx := c.rx + data, heard := c.heard + data, lastSeen := now)
  }

  /** Bytes from a native client, of which its receive buffer had room for all. */
  function Receive(s: Stream, i: nat, data: seq<byte>, now: nat, answer: bool): (r: Stream)
    requires Shape(s) && i < MAX_CLIENTS
    ensures Shape(r)
  {
    var c := s.clients[i];
    var s1 := Put(s, i, Hearing(c, data, now));
    var s2 := if c.seat.done then s1 else HandleHello(s1, i, answer);
    if s2.clients[i].seat.used && s2.clients[i].seat.done
    then HandleMessages(s2, i, RX_CAPACITY) else s2
  }

  /** Bytes a browser sent, already out of their WebSocket frames; `capacity` is what the
      unwrapped buffer has grown to, or a header's length while it is smaller than that. */
  function BrowserData(s: Stream, i: nat, data: seq<byte>, capacity: nat, now: nat): (r: Stream)
    requires Shape(s) && i < MAX_CLIENTS && HEADER_SIZE <= capacity
    ensures Shape(r)
  {
    var c := s.clients[i];
    HandleMessages(Put(s, i, Hearing(c, data, now)), i, capacity)
  }

  function Answered(c: Client, payload: seq<byte>, now: nat): Client {
    c.(lastSeen := now, feed := c.feed.(out := AnswerPing(c.feed.out, payload).0))
  }

  /** A ping found among the frames a browser sent: answered on the spot. */
  function Ponged(s: Stream, i: nat, payload: seq<byte>, now: nat): (r: Stream)
    requires Shape(s) && i < MAX_CLIENTS
    ensures Shape(r)
  {
    Put(s, i, Answered(s.clients[i], payload, now))
  }

  /** How long ago `earlier` was, on a 32-bit millisecond clock. */
  function Since(now: nat, earlier: nat): nat {
    (now - earlier) % TICKS
  }

  function Probed(c: Client, now: nat): Client {
    c.(lastProbe := now,
       feed := c.feed.(out := SendNow(c.seat.isWs, c.feed.out, Message(MSG_PING, 0, [])).0))
  }

  /** A client that sent nothing in this pass: asked after a while, given up on after longer. */
  function Quiet(s: Stream, i: nat, now: nat): (r: Stream)
    requires Shape(s) && i < MAX_CLIENTS
    ensures Shape(r)
  {
    var c := s.clients[i];
    if Since(now, c.lastSeen) > IDLE_TIMEOUT_MS then Drop(s, i)
    else if Since(now, c.lastSeen) > IDLE_PROBE_MS && Since(now, c.lastProbe) > IDLE_PROBE_MS then
      Put(s, i, Probed(c, now))
    else s
  }

  /** The transport as it starts: eight free entries and nobody watching. */
  function Initial(udp: bool): (s: Stream)
    ensures Shape(s)
  {
    var g := Group(0, 0, false, seq(12, _ => 0), false);
    Stream(seq(MAX_CLIENTS, _ => NO_CLIENT), seq(STREAM_COUNT, _ => 0), 0, CODEC_OLD3DS_MPEG1,
           seq(STREAM_COUNT, _ => 0), false, false, udp, 1280, 720, seq(STREAM_COUNT, _ => g))
  }
}
