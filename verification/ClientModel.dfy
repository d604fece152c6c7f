/**
 One entry of the transport's client table, as a value, and what each operation on it means.

 The output side is abstract here: `tail` is what was accepted but not yet written, whatever
 buffer it lives in. `wire`, `sent`, `log` and `clean` are history: every byte the socket took,
 everything accepted, every video frame of the client's stream with its fate, and whether
 each direct send so far found the queue empty and wrote all or nothing.
 */
module ClientModel {
  import opened Bytes
  import opened Wire

  const STREAM_COUNT: nat := 6
  const STREAM_VP8: nat := 0
  const STREAM_H264: nat := 1
  const STREAM_WEB: nat := 2
  const STREAM_DRC: nat := 3
  const STREAM_WIIU: nat := 4
  const STREAM_OLD3DS: nat := 5

  const CODEC_VP8: byte := 1
  const CODEC_OPUS: byte := 2
  const CODEC_H264: byte := 3
  const CODEC_DRC_H264: byte := 4
  const CODEC_PCM: byte := 5
  const CODEC_OLD3DS_JPEG: byte := 6
  const CODEC_OLD3DS_MPEG4: byte := 7
  const CODEC_OLD3DS_ADPCM: byte := 8
  const CODEC_OLD3DS_MPEG1: byte := 9
  const CODEC_OLD3DS_MPEG2: byte := 10

  const INFLIGHT_MIN: nat := 65536
  const INFLIGHT_MAX: nat := 524288
  const INFLIGHT_HEADROOM: nat := 32768
  const AUDIO_PENDING_MAX: nat := 262144
  const DIRECT_PAYLOAD_MAX: nat := 256
  const TICKS: nat := 0x1_0000_0000

  predicate Old3dsCodec(codec: byte) {
    codec == CODEC_OLD3DS_JPEG || PredictiveCodec(codec)
  }

  predicate PredictiveCodec(codec: byte) {
    codec == CODEC_OLD3DS_MPEG4 || codec == CODEC_OLD3DS_MPEG1 || codec == CODEC_OLD3DS_MPEG2
  }

  /** One video frame broadcast on a client's stream, and whether this client was given it. */
  datatype Frame = Frame(key: bool, accepted: bool)

  /** The output side. `net` is what the socket will answer to the coming `send` calls:
      a count, zero for "would block", negative for "gone"; silence is "would block". */
  datatype Out = Out(
    net: seq<int>,
    tail: seq<byte>,
    cap: nat,
    greeting: seq<byte>,
    wire: seq<byte>,
    sent: seq<Item>,
    clean: bool)

  /** Who a client is: how it arrived, what it negotiated. */
  datatype Seat = Seat(
    used: bool,
    done: bool,
    control: bool,
    codec: byte,
    isWs: bool,
    onDrc: bool,
    onWiiu: bool,
    onOld3ds: bool,
    pcmAudio: bool,
    pcmUdp: bool,
    opusUdp: bool,
    adpcmUdp: bool,
    peer: nat)

  /** What a client is being fed: its output, and where it stands in its prediction chain. */
  datatype Feed = Feed(out: Out, waiting: bool, log: seq<Frame>)

  datatype Client = Client(
    seat: Seat,
    feed: Feed,
    rx: seq<byte>,
    received: seq<Message>,
    heard: seq<byte>,
    lastSeen: nat,
    lastProbe: nat)

  const NO_SEAT: Seat :=
    Seat(false, false, false, 0, false, false, false, false, false, false, false, false, 0)

  const NO_FEED: Feed := Feed(Out([], [], 0, [], [], [], true), false, [])

  const NO_CLIENT: Client := Client(NO_SEAT, NO_FEED, [], [], [], 0, 0)

  function CodecSlot(codec: byte): (s: nat)
    ensures s < STREAM_COUNT
  {
    if codec == CODEC_DRC_H264 then STREAM_DRC
    else if codec == CODEC_H264 then STREAM_H264 else STREAM_VP8
  }

  function Slot(c: Seat): (s: nat)
    ensures s < STREAM_COUNT
  {
    if c.isWs then STREAM_WEB
    else if c.onDrc then STREAM_DRC
    else if c.onWiiu then STREAM_WIIU
    else if c.onOld3ds then STREAM_OLD3DS
    else CodecSlot(c.codec)
  }

  predicate OnStream(c: Seat, slot: nat) {
    c.used && c.done && Slot(c) == slot
  }

  // ------------------------------------------------------------------ the socket

  function Min(a: int, b: int): int {
    if a < b then a else b
  }

  /** Writes as much of the queue as the socket takes. The flag says the peer is gone. */
  function Flush(o: Out): (r: (Out, bool))
    ensures r.0 == o.(net := r.0.net, wire := r.0.wire, tail := r.0.tail)
    ensures |r.0.tail| <= |o.tail|
    decreases |o.tail|
  {
    if o.tail == [] || o.net == [] then (o, false)
    else
      var n := o.net[0];
      var o1 := o.(net := o.net[1..]);
      if n < 0 then (o1, true)
      else if n == 0 then (o1, false)
      else
        var k := Min(n, |o.tail|);
        Flush(o1.(wire := o.wire + o.tail[..k], tail := o.tail[k..]))
  }

  /** Writes all of b past the queue, or fails at the first write that takes nothing. */
  function SendAll(o: Out, b: seq<byte>): (r: (Out, bool))
    ensures r.0 == o.(net := r.0.net, wire := r.0.wire)
    decreases |b|
  {
    if b == [] then (o, true)
    else if o.net == [] then (o, false)
    else
      var n := o.net[0];
      var o1 := o.(net := o.net[1..]);
      if n <= 0 then (o1, false)
      else
        var k := Min(n, |b|);
        SendAll(o1.(wire := o.wire + b[..k]), b[k..])
  }

  /** A message sent now and past the queue: handshake, announcements on joining, probes. */
  function SendNow(ws: bool, o: Out, m: Message): (r: (Out, bool))
    ensures r.0.tail == o.tail && r.0.cap == o.cap && r.0.greeting == o.greeting
  {
    if |m.payload| > DIRECT_PAYLOAD_MAX then (o, false)
    else
      var r := SendAll(o, Wrap(ws, m));
      (PastQueue(o, r.0, Data(m), r.1), r.1)
  }

  /** The history after a write past the queue that ended with output r: whole, or not. */
  function PastQueue(o: Out, r: Out, it: Item, whole: bool): Out {
    r.(sent := if whole then o.sent + [it] else o.sent,
       clean := o.clean && o.tail == [] && (whole || r.wire == o.wire))
  }

  /** A browser's ping answered with its own payload, past the queue; a failed write is not noticed. */
  function AnswerPing(o: Out, payload: seq<byte>): (r: (Out, bool))
    ensures r.0.tail == o.tail && r.0.cap == o.cap && r.0.greeting == o.greeting
  {
    var h := SendAll(o, WsHeader(WS_PONG, |payload|));
    var r := if h.1 then SendAll(h.0, payload) else h;
    (PastQueue(o, r.0, Pong(payload), r.1), r.1)
  }

  /** The native handshake reply: bare bytes, before any framing exists. */
  function Greet(o: Out, ack: seq<byte>): (r: (Out, bool))
    ensures r.0.tail == o.tail && r.0.sent == o.sent
  {
    var r := SendAll(o, ack);
    (r.0.(greeting := ack, clean := o.clean && r.1 && o.wire == []), r.1)
  }

  // ------------------------------------------------------------------ one broadcast, one client

  /** What the environment decides for one client during one broadcast: the bytes the kernel
      still holds, if it can tell, and whether the buffer can be grown. */
  datatype Env = Env(unsent: Option<int>, grows: bool)

  datatype AudioFilter = AnyClient | OpusOnly | PcmOnly | PcmTcpOnly

  datatype Verdict = Ineligible | Dropped | Skipped | Lost | Accepted

  predicate Excluded(c: Seat, filter: AudioFilter) {
    match filter
    case AnyClient => false
    case OpusOnly => c.pcmAudio || c.opusUdp || c.adpcmUdp
    case PcmOnly => !c.pcmAudio
    case PcmTcpOnly => !c.pcmAudio || c.pcmUdp
  }

  predicate Eligible(c: Seat, slot: Option<nat>, filter: AudioFilter) {
    c.used && c.done && (slot.Some? ==> Slot(c) == slot.value) && !Excluded(c, filter)
  }

  function Clamp(x: int, lo: int, hi: int): int {
    if x < lo then lo else if x > hi then hi else x
  }

  /** How much unsent video may sit in a socket before a frame is skipped. */
  function Allowance(c: Seat, largest: nat): int {
    if !c.onOld3ds then Clamp(largest * 2 + INFLIGHT_HEADROOM, INFLIGHT_MIN, INFLIGHT_MAX)
    else if PredictiveCodec(c.codec) then Clamp(largest * 2 + 8192, 49152, 131072)
    else Clamp(largest + 8192, 24576, 65536)
  }

  /** The decaying per-stream maximum that sizes the in-flight allowance. */
  function Decayed(largest: nat, size: nat): nat {
    var d := largest - largest / 16;
    if size > d then size else d
  }

  predicate Predicted(c: Seat, m: Message) {
    m.kind == MSG_VIDEO && c.onOld3ds && PredictiveCodec(c.codec)
  }

  predicate IsKey(m: Message) {
    m.flags % 2 == FLAG_KEYFRAME
  }

  predicate Backlogged(c: Seat, m: Message, largest: nat, e: Env) {
    m.kind == MSG_VIDEO && e.unsent.Some? && e.unsent.value > Allowance(c, largest)
  }

  function Logged(f: Feed, m: Message, accepted: bool): Feed {
    if m.kind == MSG_VIDEO then f.(log := f.log + [Frame(IsKey(m), accepted)]) else f
  }

  /** A video frame that is not handed over, for a reason that breaks a prediction chain. */
  function SkipFrame(c: Seat, f: Feed, m: Message): Feed {
    Logged(f.(waiting := f.waiting || Predicted(c, m)), m, false)
  }

  /** The output with m queued behind whatever is unsent. */
  function Queue(ws: bool, o: Out, m: Message): Out {
    var needed := |o.tail| + |Wrap(ws, m)|;
    o.(tail := o.tail + Wrap(ws, m), sent := o.sent + [Data(m)],
       cap := if needed > o.cap then needed else o.cap)
  }

  /** Queues m, then writes what the socket takes. */
  function Enqueue(c: Seat, f: Feed, m: Message, e: Env): (r: (Feed, Verdict)) {
    var needed := |f.out.tail| + |Wrap(c.isWs, m)|;
    if m.kind == MSG_AUDIO && needed > AUDIO_PENDING_MAX then (NO_FEED, Dropped)
    else if needed > f.out.cap && !e.grows then (Logged(f, m, false), Lost)
    else
      var o := Flush(Queue(c.isWs, f.out, m));
      if o.1 then (NO_FEED, Dropped)
      else
        (Logged(f.(out := o.0, waiting := f.waiting && !(Predicted(c, m) && IsKey(m))), m, true), Accepted)
  }

  /** What one pass of the broadcast loop does with an eligible client whose queue was flushed. */
  function Offer(c: Seat, f: Feed, m: Message, largest: nat, e: Env): (r: (Feed, Verdict)) {
    if Predicted(c, m) && f.waiting && !IsKey(m) then (Logged(f, m, false), Skipped)
    else if Backlogged(c, m, largest, e) then (SkipFrame(c, f, m), Skipped)
    else if f.out.tail != [] && m.kind != MSG_AUDIO then (SkipFrame(c, f, m), Skipped)
    else Enqueue(c, f, m, e)
  }

  /** One pass of the broadcast loop over one client. */
  function Deliver(c: Seat, f: Feed, m: Message, slot: Option<nat>, filter: AudioFilter, largest: nat, e: Env)
    : (r: (Feed, Verdict))
  {
    if !Eligible(c, slot, filter) then (f, Ineligible)
    else
      var o := Flush(f.out);
      if o.1 then (NO_FEED, Dropped) else Offer(c, f.(out := o.0), m, largest, e)
  }

  /** Only a connected client can be dropped by a broadcast. */
  lemma DroppedWasUsed(c: Seat, f: Feed, m: Message, slot: Option<nat>, filter: AudioFilter, largest: nat, e: Env)
    requires Deliver(c, f, m, slot, filter, largest, e).1.Dropped?
    ensures c.used && c.done
  {
  }
}
