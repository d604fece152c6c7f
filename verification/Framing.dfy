/**
 The output side of one client: what reaches the wire is whole messages, in order.
 */
module Framing {
  import opened Bytes
  import opened Wire
  import opened ClientModel

  /** Bytes written plus bytes queued are the greeting and then exactly the accepted messages. */
  predicate Framed(ws: bool, o: Out) {
    o.wire + o.tail == o.greeting + EncodeAll(ws, o.sent)
  }

  predicate WellFramed(ws: bool, o: Out) {
    AllWritable(ws, o.sent) && (o.clean ==> o.greeting <= o.wire && Framed(ws, o))
  }

  const MAX_WRAPPED: nat := MAX_WS_HEADER + HEADER_SIZE + MAX_PAYLOAD
  const PENDING_MAX: nat := if AUDIO_PENDING_MAX > MAX_WRAPPED then AUDIO_PENDING_MAX else MAX_WRAPPED

  /** The peer's reader sees the accepted messages and nothing else, however far it has got. */
  lemma WireReadsBack(ws: bool, o: Out)
    requires o.clean && WellFramed(ws, o)
    ensures ReadAll(ws, o.wire[|o.greeting|..]) <= o.sent
    ensures o.tail == [] ==> ReadAll(ws, o.wire[|o.greeting|..]) == o.sent
  {
    hide ReadAll, EncodeAll;
    var b := o.wire[|o.greeting|..];
    assert o.wire == o.greeting + b;
    assert o.greeting + (b + o.tail) == o.greeting + EncodeAll(ws, o.sent);
    assert (o.greeting + (b + o.tail))[|o.greeting|..] == b + o.tail;
    assert (o.greeting + EncodeAll(ws, o.sent))[|o.greeting|..] == EncodeAll(ws, o.sent);
    ReadAllOfPrefix(ws, o.sent, b, o.tail);
  }

  /** Flushing moves bytes from the front of the queue to the end of the wire. */
  lemma {:induction false} FlushConserves(o: Out)
    ensures var f := Flush(o).0;
            o.wire <= f.wire && f.wire + f.tail == o.wire + o.tail
    decreases |o.tail|
  {
    if o.tail != [] && o.net != [] && o.net[0] > 0 {
      var k := Min(o.net[0], |o.tail|);
      assert (o.wire + o.tail[..k]) + o.tail[k..] == o.wire + o.tail;
      FlushConserves(o.(net := o.net[1..], wire := o.wire + o.tail[..k], tail := o.tail[k..]));
    }
  }

  /** A direct send puts a prefix of its bytes on the wire, and says so exactly when it is all of them. */
  lemma {:induction false} SendAllPrefix(o: Out, b: seq<byte>)
    ensures var r := SendAll(o, b);
            o.wire <= r.0.wire <= o.wire + b && (r.1 <==> r.0.wire == o.wire + b)
    decreases |b|
  {
    if b != [] && o.net != [] && o.net[0] > 0 {
      var k := Min(o.net[0], |b|);
      assert (o.wire + b[..k]) + b[k..] == o.wire + b;
      SendAllPrefix(o.(net := o.net[1..], wire := o.wire + b[..k]), b[k..]);
    }
  }

  lemma FlushFramed(ws: bool, o: Out)
    requires WellFramed(ws, o)
    ensures WellFramed(ws, Flush(o).0)
  {
    FlushConserves(o);
  }

  lemma Reassociate(wire: seq<byte>, tail: seq<byte>, w: seq<byte>, greeting: seq<byte>, all: seq<byte>)
    requires wire + tail == greeting + all
    ensures wire + (tail + w) == greeting + (all + w)
  {
    assert wire + (tail + w) == (wire + tail) + w;
    assert greeting + (all + w) == (greeting + all) + w;
  }

  /** Accepting a message appends its whole encoding to what the client is owed. */
  lemma QueuedFramed(ws: bool, o: Out, m: Message)
    requires WellFramed(ws, o) && Sendable(m)
    ensures WellFramed(ws, Queue(ws, o, m))
  {
    hide Wrap, EncodeAll;
    assert Written(ws, Data(m)) == Wrap(ws, m);
    if o.clean {
      EncodeAllAppend(ws, o.sent, Data(m));
      Reassociate(o.wire, o.tail, Wrap(ws, m), o.greeting, EncodeAll(ws, o.sent));
    }
  }

  /** No broadcast step, whatever the socket takes and whatever it refuses, breaks the framing. */
  lemma DeliverFramed(c: Seat, f: Feed, m: Message, slot: Option<nat>, filter: AudioFilter, largest: nat, e: Env)
    requires WellFramed(c.isWs, f.out) && Sendable(m)
    ensures var d := Deliver(c, f, m, slot, filter, largest, e);
            !d.1.Dropped? ==> d.0.out.clean == f.out.clean && WellFramed(c.isWs, d.0.out)
  {
    hide WellFramed, Wrap, Flush, Allowance;
    FlushFramed(c.isWs, f.out);
    var o := Flush(f.out).0;
    QueuedFramed(c.isWs, o, m);
    FlushFramed(c.isWs, Queue(c.isWs, o, m));
  }

  /** The bytes a client has been or will be written, as long as it stays. */
  function Stream(o: Out): seq<byte> {
    o.wire + o.tail
  }

  /** A message is accepted whole or leaves no byte behind. */
  lemma AllOrNothing(c: Seat, f: Feed, m: Message, slot: Option<nat>, filter: AudioFilter, largest: nat, e: Env)
    ensures var d := Deliver(c, f, m, slot, filter, largest, e);
            match d.1
            case Accepted => d.0.out.sent == f.out.sent + [Data(m)]
                             && Stream(d.0.out) == Stream(f.out) + Wrap(c.isWs, m)
            case Dropped => true
            case _ => d.0.out.sent == f.out.sent && Stream(d.0.out) == Stream(f.out)
  {
    hide Wrap, Flush, Allowance;
    FlushConserves(f.out);
    var o := Flush(f.out).0;
    FlushConserves(Queue(c.isWs, o, m));
    assert Stream(Queue(c.isWs, o, m)) == Stream(o) + Wrap(c.isWs, m);
  }

  /** The queue never outgrows the audio bound or one message of the largest size. */
  lemma DeliverBounded(c: Seat, f: Feed, m: Message, slot: Option<nat>, filter: AudioFilter, largest: nat, e: Env)
    requires |f.out.tail| <= PENDING_MAX && Sendable(m)
    ensures |Deliver(c, f, m, slot, filter, largest, e).0.out.tail| <= PENDING_MAX
  {
    hide Wrap, Flush, Allowance;
  }

  /**
   Audio is never skipped: an eligible client is given the packet, behind whatever it is owed,
   unless its peer is gone or it is too far behind to be worth keeping -- and then it is dropped.
   The one exception is exactly a buffer that has to grow and cannot.
   */
  lemma AudioNeverSkipped(c: Seat, f: Feed, m: Message, slot: Option<nat>, filter: AudioFilter, largest: nat, e: Env)
    requires m.kind == MSG_AUDIO && Eligible(c, slot, filter)
    ensures var d := Deliver(c, f, m, slot, filter, largest, e);
            && (d.1.Accepted? || d.1.Dropped? || d.1.Lost?)
            && (d.1.Lost? <==> NoRoomForAudio(c, f, m, e))
            && (d.1.Lost? ==> Stream(d.0.out) == Stream(f.out) && d.0.out.sent == f.out.sent)
            && (BehindForAudio(c, f, m) ==> d.1.Dropped?)
            && (d.1.Accepted? ==> Stream(d.0.out) == Stream(f.out) + Wrap(c.isWs, m)
                                  && d.0.out.sent == f.out.sent + [Data(m)])
  {
    hide Wrap, Flush, Allowance;
    AllOrNothing(c, f, m, slot, filter, largest, e);
  }

  /** What the queue must hold for this packet, once the socket has taken what it takes. */
  function NeededFor(c: Seat, f: Feed, m: Message): nat {
    |Flush(f.out).0.tail| + |Wrap(c.isWs, m)|
  }

  predicate BehindForAudio(c: Seat, f: Feed, m: Message) {
    !Flush(f.out).1 && NeededFor(c, f, m) > AUDIO_PENDING_MAX
  }

  predicate NoRoomForAudio(c: Seat, f: Feed, m: Message, e: Env) {
    !Flush(f.out).1 && f.out.cap < NeededFor(c, f, m) <= AUDIO_PENDING_MAX && !e.grows
  }

  // ------------------------------------------------------------------ words that commute

  function Repeat(u: seq<byte>, n: nat): (b: seq<byte>)
    ensures |b| == |u| * n
  {
    if n == 0 then [] else u + Repeat(u, n - 1)
  }

  lemma {:induction false} RepeatAdd(u: seq<byte>, j: nat, k: nat)
    ensures Repeat(u, j) + Repeat(u, k) == Repeat(u, j + k)
  {
    if j > 0 {
      RepeatAdd(u, j - 1, k);
      assert Repeat(u, j) + Repeat(u, k) == u + (Repeat(u, j - 1) + Repeat(u, k));
    }
  }

  /** Repetitions of one word commute. */
  lemma RepeatsCommute(u: seq<byte>, j: nat, k: nat)
    ensures Repeat(u, j) + Repeat(u, k) == Repeat(u, k) + Repeat(u, j)
  {
    RepeatAdd(u, j, k);
    RepeatAdd(u, k, j);
  }

  /** And nothing else does. */
  lemma {:induction false} CommutingAreRepeats(x: seq<byte>, y: seq<byte>) returns (u: seq<byte>, j: nat, k: nat)
    requires x + y == y + x
    ensures x == Repeat(u, j) && y == Repeat(u, k)
    decreases |x| + |y|, |x|
  {
    if x == [] || y == [] {
      u, j, k := x + y, if x == [] then 0 else 1, if y == [] then 0 else 1;
      assert Repeat(u, 1) == u + Repeat(u, 0) == u;
    } else if |x| <= |y| {
      var z := y[|x|..];
      assert y[..|x|] == (y + x)[..|x|] == (x + y)[..|x|] == x;
      assert y == x + z;
      assert (x + y)[|x|..] == x + z && (y + x)[|x|..] == z + x;
      var i;
      u, j, i := CommutingAreRepeats(x, z);
      RepeatAdd(u, j, i);
      k := j + i;
    } else {
      u, k, j := CommutingAreRepeats(y, x);
    }
  }

  ghost predicate OneWord(x: seq<byte>, y: seq<byte>) {
    exists u: seq<byte>, j: nat, k: nat :: x == Repeat(u, j) && y == Repeat(u, k)
  }

  lemma CommuteExact(x: seq<byte>, y: seq<byte>)
    ensures x + y == y + x <==> OneWord(x, y)
  {
    if x + y == y + x {
      var u, j, k := CommutingAreRepeats(x, y);
    }
    if OneWord(x, y) {
      var u: seq<byte>, j: nat, k: nat :| x == Repeat(u, j) && y == Repeat(u, k);
      RepeatsCommute(u, j, k);
    }
  }

  // ------------------------------------------------------------------ sends past the queue

  /**
   A write past the queue keeps the framing exactly when it completed and its bytes and the queue's
   are repetitions of one word -- as when the queue is empty -- or when it wrote nothing at all.
   */
  lemma PastQueueExact(ws: bool, o: Out, r: Out, it: Item, whole: bool)
    requires o.greeting <= o.wire && Framed(ws, o) && r.tail == o.tail && r.greeting == o.greeting
    requires o.wire <= r.wire && (whole ==> r.wire == o.wire + Written(ws, it))
    ensures Framed(ws, PastQueue(o, r, it, whole))
            <==> if whole then OneWord(Written(ws, it), o.tail) else r.wire == o.wire
  {
    hide Written, EncodeAll, OneWord;
    var w := Written(ws, it);
    EncodeAllAppend(ws, o.sent, it);
    CommuteExact(w, o.tail);
    if whole {
      assert r.wire + r.tail == o.wire + (w + o.tail);
      assert r.greeting + (EncodeAll(ws, o.sent) + w) == (o.greeting + EncodeAll(ws, o.sent)) + w;
      assert (o.wire + o.tail) + w == o.wire + (o.tail + w);
      assert (o.wire + (w + o.tail))[|o.wire|..] == w + o.tail;
      assert (o.wire + (o.tail + w))[|o.wire|..] == o.tail + w;
    } else {
      assert |r.wire + o.tail| == |r.wire| + |o.tail|;
      assert |o.wire + o.tail| == |o.wire| + |o.tail|;
    }
  }

  /** The same, for the handshake of a browser, announcements and probes. */
  lemma DirectSendExact(ws: bool, o: Out, m: Message)
    requires o.greeting <= o.wire && Framed(ws, o) && |m.payload| <= DIRECT_PAYLOAD_MAX
    ensures var r := SendNow(ws, o, m);
            Framed(ws, r.0) <==> if r.1 then OneWord(Wrap(ws, m), o.tail) else r.0.wire == o.wire
  {
    hide Wrap, SendAll, Framed;
    SendAllPrefix(o, Wrap(ws, m));
    var r := SendAll(o, Wrap(ws, m));
    PastQueueExact(ws, o, r.0, Data(m), r.1);
  }

  /** The answer to a ping is its header and then its payload, all of it or a prefix. */
  lemma AnswerPingPrefix(o: Out, payload: seq<byte>)
    ensures var r := AnswerPing(o, payload);
            o.wire <= r.0.wire <= o.wire + PongFrame(payload)
            && (r.1 <==> r.0.wire == o.wire + PongFrame(payload))
  {
    hide SendAll, WsHeader;
    var head := WsHeader(WS_PONG, |payload|);
    SendAllPrefix(o, head);
    var h := SendAll(o, head);
    if h.1 {
      SendAllPrefix(h.0, payload);
      assert o.wire + (head + payload) == (o.wire + head) + payload;
    } else {
      assert |h.0.wire| <= |o.wire + head|;
      assert o.wire + (head + payload) == (o.wire + head) + payload;
    }
  }

  /** A ping answered keeps a browser's stream readable exactly in the same two cases. */
  lemma PongExact(o: Out, payload: seq<byte>)
    requires o.greeting <= o.wire && Framed(true, o)
    ensures var r := AnswerPing(o, payload);
            Framed(true, r.0) <==> if r.1 then OneWord(PongFrame(payload), o.tail) else r.0.wire == o.wire
  {
    hide SendAll, Framed, PongFrame;
    AnswerPingPrefix(o, payload);
    var h := SendAll(o, WsHeader(WS_PONG, |payload|));
    var r := if h.1 then SendAll(h.0, payload) else h;
    PastQueueExact(true, o, r.0, Pong(payload), r.1);
  }

  /** So a queue that does not begin like a pong is torn by one. */
  lemma PongTearsMessages(o: Out, payload: seq<byte>)
    requires o.greeting <= o.wire && Framed(true, o) && AnswerPing(o, payload).1
    requires o.tail != [] && o.tail[0] != WS_PONG
    ensures !Framed(true, AnswerPing(o, payload).0)
  {
    hide AnswerPing, Framed;
    PongExact(o, payload);
    CommuteExact(PongFrame(payload), o.tail);
    FirstBytesDiffer(PongFrame(payload), o.tail);
  }

  lemma FirstBytesDiffer(x: seq<byte>, y: seq<byte>)
    requires x != [] && y != [] && x[0] != y[0]
    ensures x + y != y + x
  {
    assert (x + y)[0] == x[0] && (y + x)[0] == y[0];
  }

  lemma EmptyQueueCommutes(w: seq<byte>)
    ensures OneWord(w, [])
  {
    assert w + [] == [] + w;
    CommuteExact(w, []);
  }

  lemma SendNowFramed(ws: bool, o: Out, m: Message)
    requires WellFramed(ws, o)
    ensures WellFramed(ws, SendNow(ws, o, m).0)
  {
    hide Wrap, EncodeAll, SendAll, OneWord;
    var r := SendNow(ws, o, m);
    if r.0.clean && |m.payload| <= DIRECT_PAYLOAD_MAX {
      SendAllPrefix(o, Wrap(ws, m));
      DirectSendExact(ws, o, m);
      EmptyQueueCommutes(Wrap(ws, m));
    }
  }

  lemma AnswerPingFramed(o: Out, payload: seq<byte>)
    requires WellFramed(true, o) && |payload| <= MAX_PAYLOAD
    ensures WellFramed(true, AnswerPing(o, payload).0)
  {
    hide EncodeAll, SendAll, OneWord, PongFrame;
    if AnswerPing(o, payload).0.clean {
      AnswerPingPrefix(o, payload);
      PongExact(o, payload);
      EmptyQueueCommutes(PongFrame(payload));
    }
  }

  /** The bare handshake reply, provided nothing was written before it. */
  lemma GreetFramed(o: Out, ack: seq<byte>)
    requires WellFramed(false, o) && o.tail == []
    ensures WellFramed(false, Greet(o, ack).0)
  {
    hide SendAll, Wrap;
    var r := Greet(o, ack);
    if r.0.clean {
      SendAllPrefix(o, ack);
      assert r.0.wire == [] + ack;
      assert EncodeAll(false, r.0.sent) == [];
      assert r.0.wire + [] == ack + [];
    }
  }

  // ------------------------------------------------------------------ keep-alives

  const PING: Message := Message.Message(MSG_PING, 0, [])

  /** One keep-alive, repeated. */
  function Pings(n: nat): (b: seq<byte>)
    ensures |b| == HEADER_SIZE * n
  {
    Repeat(Encode(PING), n)
  }

  /** A keep-alive is not a repetition of anything shorter. */
  lemma PingIsPrimitive(t: seq<byte>)
    requires 0 < |t| < HEADER_SIZE
    ensures Encode(PING) + t != t + Encode(PING)
  {
    var w := Encode(PING);
    assert (t + w)[|t|] == MSG_PING;
    assert (w + t)[|t|] == w[|t|] == 0;
  }

  /** Only a queue of whole keep-alives commutes with one. */
  lemma {:induction false} CommutingIsPings(t: seq<byte>) returns (n: nat)
    requires Encode(PING) + t == t + Encode(PING)
    ensures t == Pings(n)
    decreases |t|
  {
    var w := Encode(PING);
    if t == [] {
      n := 0;
    } else if |t| < |w| {
      PingIsPrimitive(t);
    } else {
      var t1 := t[|w|..];
      assert (t + w)[..|w|] == t[..|w|] == (w + t)[..|w|] == w;
      assert t == w + t1;
      assert (w + t)[|w|..] == t && (t + w)[|w|..] == t1 + w;
      var k := CommutingIsPings(t1);
      n := k + 1;
    }
  }

  /**
   The probe of a quiet native client goes straight to the socket. It leaves the stream readable
   if and only if nothing was queued -- or the queue was itself nothing but keep-alives.
   */
  lemma ProbeExact(o: Out)
    requires o.greeting <= o.wire && Framed(false, o)
    requires SendNow(false, o, PING).1
    ensures Framed(false, SendNow(false, o, PING).0) <==> exists n: nat :: o.tail == Pings(n)
  {
    DirectSendExact(false, o, PING);
    CommuteExact(Encode(PING), o.tail);
    if Encode(PING) + o.tail == o.tail + Encode(PING) {
      var n := CommutingIsPings(o.tail);
    }
    forall n: nat | o.tail == Pings(n)
      ensures Encode(PING) + o.tail == o.tail + Encode(PING)
    {
      RepeatsCommute(Encode(PING), 1, n);
      assert Repeat(Encode(PING), 1) == Encode(PING) + Repeat(Encode(PING), 0) == Encode(PING);
    }
  }

  /** The handshake reply comes first on the wire if and only if no probe went out before it. */
  lemma GreetAfterProbes(o: Out, n: nat, ack: seq<byte>)
    requires o.wire == Pings(n) && ack != [] && ack[0] != MSG_PING && Greet(o, ack).1
    ensures ack <= Greet(o, ack).0.wire <==> n == 0
  {
    SendAllPrefix(o, ack);
    assert Greet(o, ack).0.wire == Pings(n) + ack;
    if n > 0 {
      assert (Pings(n) + ack)[0] == Encode(PING)[0] == MSG_PING;
    }
  }
}
