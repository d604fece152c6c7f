/**
 One entry of the client table as the transport keeps it: flags, a fixed receive buffer, and a
 send buffer that grows and is compacted in place.
 */
module SsClientObject {
  import opened Bytes
  import opened Wire
  import opened ClientModel
  import opened StreamModel

  class SsClient {
    var seat: Seat
    var waitingKeyframe: bool
    var lastSeen: nat
    var lastProbe: nat

    const rx: array<byte>
    var rxLen: nat
    var wsRx: seq<byte>

    var pending: seq<byte>
    var pendingLen: nat
    var pendingSent: nat

    // The socket: what it will answer to the coming sends.
    var net: seq<int>

    ghost var greeting: seq<byte>
    ghost var wire: seq<byte>
    ghost var sent: seq<Item>
    ghost var clean: bool
    ghost var log: seq<Frame>
    ghost var received: seq<Message>
    ghost var heard: seq<byte>

    ghost predicate Valid()
      reads this
    {
      rx.Length == RX_CAPACITY && rxLen <= rx.Length && pendingSent <= pendingLen <= |pending|
      && (pendingLen != 0 ==> pendingSent < pendingLen)
    }

    ghost function OutView(): Out
      reads this
      requires Valid()
    {
      Out(net, pending[pendingSent..pendingLen], |pending|, greeting, wire, sent, clean)
    }

    ghost function FeedView(): Feed
      reads this
      requires Valid()
    {
      Feed(OutView(), waitingKeyframe, log)
    }

    /** The bytes waiting to be parsed: a browser's are already out of their frames. */
    function Input(): seq<byte>
      reads this, rx
      requires Valid()
    {
      if seat.isWs then wsRx else rx[..rxLen]
    }

    ghost function View(): Client
      reads this, rx
      requires Valid()
    {
      Client(seat, FeedView(), Input(), received, heard, lastSeen, lastProbe)
    }

    /** Nobody's entry. */
    ghost predicate Free()
      reads this, rx
    {
      Valid() && View() == NO_CLIENT
    }

    constructor ()
      ensures Free() && fresh(rx)
    {
      rx := new byte[RX_CAPACITY](_ => 0);
      seat, waitingKeyframe, lastSeen, lastProbe := NO_SEAT, false, 0, 0;
      rxLen, wsRx := 0, [];
      pending, pendingLen, pendingSent, net := [], 0, 0, [];
      greeting, wire, sent, clean, log, received, heard := [], [], [], true, [], [], [];
    }

    /** The send buffer freed, and with it whatever it still owed. */
    method ClearOutput()
      requires Valid()
      modifies this
      ensures Valid() && OutView() == NO_FEED.out
      ensures seat == old(seat) && rxLen == old(rxLen)
    {
      pending, pendingLen, pendingSent, net := [], 0, 0, [];
      greeting, wire, sent, clean := [], [], [], true;
    }

    /** The entry zeroed: its buffers freed, nothing held. */
    method Clear()
      requires Valid()
      modifies this
      ensures Valid() && View() == NO_CLIENT
      ensures rxLen == 0 && wsRx == []
    {
      ClearOutput();
      seat, waitingKeyframe, lastSeen, lastProbe := NO_SEAT, false, 0, 0;
      rxLen, wsRx := 0, [];
      log, received, heard := [], [], [];
      assert OutView() == NO_FEED.out;
    }

    /** The entry zeroed and given to a newcomer. */
    method Occupy(newcomer: Seat, now: nat, socket: seq<int>)
      requires Valid()
      modifies this
      ensures Valid() && View() == Client(newcomer, FreshFeed(socket), [], [], [], now, 0)
      ensures seat == newcomer
    {
      Clear();
      seat, lastSeen, net := newcomer, now, socket;
      assert Input() == [];
    }

    // ---------------------------------------------------------------- sending

    /** One non-blocking send: bytes taken, zero when the socket is full, -1 when the peer is gone. */
    method SendSome(data: seq<byte>) returns (n: int)
      requires data != []
      modifies `net, `wire
      ensures -1 <= n <= |data|
      ensures net == if old(net) == [] then [] else old(net)[1..]
      ensures n == if old(net) == [] then 0 else if old(net)[0] < 0 then -1 else Min(old(net)[0], |data|)
      ensures wire == if n <= 0 then old(wire) else old(wire) + data[..n]
    {
      if net == [] {
        n := 0;
      } else {
        n := if net[0] < 0 then -1 else if net[0] < |data| then net[0] else |data|;
        net := net[1..];
      }
      wire := if n <= 0 then wire else wire + data[..n];
    }

    /** Writes all of data past the queue, or fails at the first send that takes nothing. */
    method SendAllNow(data: seq<byte>) returns (ok: bool)
      requires Valid()
      modifies `net, `wire
      ensures Valid() && (OutView(), ok) == SendAll(old(OutView()), data)
    {
      var done := 0;
      while done < |data|
        invariant Valid() && 0 <= done <= |data|
        invariant OutView() == old(OutView()).(net := net, wire := wire)
        invariant SendAll(OutView(), data[done..]) == SendAll(old(OutView()), data)
      {
        ghost var before := OutView();
        var n := SendSome(data[done..]);
        if n <= 0 {
          assert before.net == [] ==> net == [];
          assert wire == before.wire;
          return false;
        }
        assert data[done..][n..] == data[done + n..];
        done := done + n;
      }
      ok := true;
    }

    /** Pushes out whatever is left of a partly sent message; true once the peer is gone. */
    method FlushPending() returns (gone: bool)
      requires Valid()
      modifies `net, `wire, `pendingLen, `pendingSent
      ensures Valid() && (OutView(), gone) == Flush(old(OutView()))
      ensures !gone && pendingLen != 0 ==> pendingSent < pendingLen
    {
      while pendingSent < pendingLen
        invariant pendingSent <= pendingLen <= |pending|
        invariant pendingLen != 0 ==> pendingSent <= pendingLen
        invariant var o := old(OutView()).(net := net, wire := wire, tail := pending[pendingSent..pendingLen]);
                  Flush(o) == Flush(old(OutView()))
        decreases pendingLen - pendingSent
      {
        var n := SendSome(pending[pendingSent..pendingLen]);
        if n < 0 {
          return true;
        }
        if n == 0 {
          return false;
        }
        assert pending[pendingSent..pendingLen][n..] == pending[pendingSent + n..pendingLen];
        pendingSent := pendingSent + n;
      }
      pendingLen, pendingSent := 0, 0;
      gone := false;
    }

    /** A message sent now and whole, wrapped for a browser if that is what this client is. */
    method SendMsgNow(m: Message) returns (ok: bool)
      requires Valid()
      modifies `net, `wire, `sent, `clean
      ensures Valid() && (OutView(), ok) == SendNow(seat.isWs, old(OutView()), m)
    {
      if |m.payload| > DIRECT_PAYLOAD_MAX {
        return false;
      }
      hide Wrap, SendAll;
      ghost var before := OutView();
      ok := SendAllNow(Wrap(seat.isWs, m));
      NotePastQueue(before, Data(m), ok);
    }

    /** The answer to a browser's ping: a header, then the ping's own payload. */
    method SendPong(payload: seq<byte>) returns (ok: bool)
      requires Valid()
      modifies `net, `wire, `sent, `clean
      ensures Valid() && (OutView(), ok) == AnswerPing(old(OutView()), payload)
    {
      hide WsHeader, SendAll;
      ghost var before := OutView();
      ok := SendAllNow(WsHeader(WS_PONG, |payload|));
      if ok {
        ok := SendAllNow(payload);
      }
      NotePastQueue(before, Pong(payload), ok);
    }

    /** Writes a send past the queue into the history. */
    ghost method NotePastQueue(before: Out, it: Item, whole: bool)
      requires Valid() && OutView() == before.(net := net, wire := wire)
      modifies `sent, `clean
      ensures Valid() && OutView() == PastQueue(before, old(OutView()), it, whole)
    {
      sent := if whole then before.sent + [it] else before.sent;
      clean := before.clean && before.tail == [] && (whole || wire == before.wire);
    }

    /** The bare handshake reply of a native client. */
    method SendGreeting(ack: seq<byte>) returns (ok: bool)
      requires Valid()
      modifies `net, `wire, `greeting, `clean
      ensures Valid() && (OutView(), ok) == Greet(old(OutView()), ack)
    {
      ghost var before := OutView();
      ok := SendAllNow(ack);
      greeting := ack;
      clean := clean && ok && before.wire == [];
    }

    /** Tells this client the shape and the settings of a stream; failures go unnoticed. */
    method SendGroup(g: Group, codec: byte)
      requires Valid()
      modifies `net, `wire, `sent, `clean
      ensures Valid() && OutView() == TellGroup(g, codec, seat.isWs, old(OutView()))
    {
      hide SendNow;
      if g.known {
        var _ := SendMsgNow(Message(MSG_STREAM_INFO, 0, StreamInfo(g.width, g.height, codec)));
      }
      if g.sharedKnown {
        var _ := SendMsgNow(Message(MSG_SHARED, 0, g.shared));
      }
    }

    /** Asks a quiet client whether it is still there. */
    method Probe(now: nat)
      requires Valid()
      modifies `net, `wire, `sent, `clean, `lastProbe
      ensures Valid() && View() == Probed(old(View()), now)
    {
      hide SendNow;
      lastProbe := now;
      var _ := SendMsgNow(Message(MSG_PING, 0, []));
    }

    /** A ping found among a browser's frames. */
    method HearPing(payload: seq<byte>, now: nat)
      requires Valid()
      modifies `net, `wire, `sent, `clean, `lastSeen
      ensures Valid() && View() == Answered(old(View()), payload, now)
    {
      hide AnswerPing;
      lastSeen := now;
      var _ := SendPong(payload);
    }

    /** Moves the unsent bytes of the buffer to its front. */
    method Compact()
      requires Valid()
      modifies `pending, `pendingLen, `pendingSent
      ensures Valid() && OutView() == old(OutView()) && pendingSent == 0
    {
      if pendingLen != 0 && pendingSent != 0 {
        var remain := pendingLen - pendingSent;
        pending := pending[pendingSent..pendingLen] + pending[remain..];
        pendingLen := remain;
        pendingSent := 0;
      }
    }

    /** Lays a message behind what is unsent; false when the buffer must grow and cannot. */
    method Append(m: Message, grows: bool) returns (ok: bool)
      requires Valid() && pendingSent == 0
      modifies `pending, `pendingLen, `sent
      ensures Valid()
      ensures ok <==> |old(OutView()).tail| + |Wrap(seat.isWs, m)| <= |old(pending)| || grows
      ensures OutView() == if ok then Queue(seat.isWs, old(OutView()), m) else old(OutView())
    {
      var bytes := Wrap(seat.isWs, m);
      var needed := pendingLen + |bytes|;
      if needed > |pending| {
        if !grows {
          return false;
        }
        pending := pending + seq(needed - |pending|, _ => 0);
      }
      pending := pending[..pendingLen] + bytes + pending[needed..];
      assert pending[..needed] == old(pending[..pendingLen]) + bytes;
      pendingLen := needed;
      sent := sent + [Data(m)];
      ok := true;
    }

    /** Writes one video frame into the history; other messages leave none. */
    ghost method Note(m: Message, accepted: bool)
      requires Valid()
      modifies `log
      ensures Valid() && FeedView() == Logged(old(FeedView()), m, accepted)
    {
      if m.kind == MSG_VIDEO {
        log := log + [Frame(IsKey(m), accepted)];
      }
    }

    /** A frame passed over for a reason that invalidates what this client would predict from. */
    method SkipVideo(m: Message)
      requires Valid()
      modifies `waitingKeyframe, `log
      ensures Valid() && FeedView() == SkipFrame(seat, old(FeedView()), m)
    {
      if Predicted(seat, m) {
        waitingKeyframe := true;
      }
      Note(m, false);
    }

    /** Buffers a message the policy lets through, and writes what the socket takes. */
    method EnqueueMessage(m: Message, e: Env) returns (v: Verdict)
      requires Valid() && pendingSent == 0
      modifies `net, `wire, `pending, `pendingLen, `pendingSent, `sent, `waitingKeyframe, `log
      ensures Valid() && v == Enqueue(seat, old(FeedView()), m, e).1
      ensures !v.Dropped? ==> FeedView() == Enqueue(seat, old(FeedView()), m, e).0
    {
      hide Wrap, Flush;
      if m.kind == MSG_AUDIO && pendingLen + |Wrap(seat.isWs, m)| > AUDIO_PENDING_MAX {
        return Dropped;
      }
      var ok := Append(m, e.grows);
      if !ok {
        Note(m, false);
        return Lost;
      }
      var gone := FlushPending();
      if gone {
        return Dropped;
      }
      if Predicted(seat, m) && IsKey(m) {
        waitingKeyframe := false;
      }
      Note(m, true);
      v := Accepted;
    }

    /** What the broadcast loop does with this client, short of dropping it. */
    method DeliverMessage(m: Message, slot: Option<nat>, filter: AudioFilter, recent: nat, e: Env)
      returns (v: Verdict)
      requires Valid()
      modifies `net, `wire, `pending, `pendingLen, `pendingSent, `sent, `waitingKeyframe, `log
      ensures Valid() && v == Deliver(seat, old(FeedView()), m, slot, filter, recent, e).1
      ensures !v.Dropped? ==> FeedView() == Deliver(seat, old(FeedView()), m, slot, filter, recent, e).0
    {
      hide Enqueue, Flush, Wrap, Logged;
      if !Eligible(seat, slot, filter) {
        return Ineligible;
      }
      var gone := FlushPending();
      if gone {
        return Dropped;
      }
      if Predicted(seat, m) && waitingKeyframe && !IsKey(m) {
        Note(m, false);
        return Skipped;
      }
      if m.kind == MSG_VIDEO && e.unsent.Some? && e.unsent.value > Allowance(seat, recent) {
        SkipVideo(m);
        return Skipped;
      }
      if pendingLen != 0 {
        if m.kind != MSG_AUDIO {
          SkipVideo(m);
          return Skipped;
        }
        Compact();
      }
      v := EnqueueMessage(m, e);
    }

    // ---------------------------------------------------------------- receiving

    /** Moves what follows the first n bytes of the fixed buffer to its front. */
    method MoveDown(n: nat)
      requires rxLen <= rx.Length && n <= rxLen
      modifies `rxLen, rx
      ensures rxLen == old(rxLen) - n && rx[..rxLen] == old(rx[..rxLen])[n..]
    {
      forall k | 0 <= k < rxLen - n {
        rx[k] := rx[k + n];
      }
      rxLen := rxLen - n;
    }

    /** Drops bytes from the front of the receive buffer. */
    method Consume(n: nat)
      requires Valid() && n <= |Input()|
      modifies `rxLen, `wsRx, rx
      ensures Valid() && Input() == old(Input())[n..] && View() == old(View()).(rx := old(Input())[n..])
    {
      if seat.isWs {
        wsRx := wsRx[n..];
      } else {
        MoveDown(n);
      }
    }

    /** What recv put after the bytes already held. */
    method Store(data: seq<byte>)
      requires Valid() && !seat.isWs && |data| <= RX_CAPACITY - rxLen
      modifies `rxLen, rx
      ensures Valid() && Input() == old(Input()) + data
    {
      forall k | 0 <= k < |data| {
        rx[rxLen + k] := data[k];
      }
      rxLen := rxLen + |data|;
    }

    /** Takes one message out of the buffer; the history keeps it. */
    method TakeMessage(m: Message)
      requires Valid() && HEADER_SIZE + |m.payload| <= |Input()|
      modifies `rxLen, `wsRx, `received, rx
      ensures Valid() && View() == AfterPiece(old(View()), Piece(m, HEADER_SIZE + |m.payload|))
    {
      Consume(HEADER_SIZE + |m.payload|);
      received := received + [m];
    }

    /** Puts this client on another codec; its history starts again with the new stream. */
    method Retune(codec: byte, waiting: bool)
      requires Valid()
      modifies `seat, `waitingKeyframe, `log
      ensures Valid() && View() == Retuned(old(View()), codec, waiting)
    {
      seat := seat.(codec := codec);
      waitingKeyframe := waiting;
      log := [];
    }

    /** Answers a greeting that was accepted, and takes the seat that was negotiated. */
    method Welcome(n: nat, negotiated: Seat, ack: seq<byte>, parked: bool) returns (ok: bool)
      requires Valid() && n <= |Input()| && negotiated.isWs == seat.isWs
      modifies `seat, `waitingKeyframe, `net, `wire, `greeting, `clean, `rxLen, `wsRx, rx
      ensures Valid()
      ensures ok == Welcomed(old(View()), n, negotiated, ack, parked).1
      ensures ok ==> View() == Welcomed(old(View()), n, negotiated, ack, parked).0
    {
      hide Greet;
      Consume(n);
      ok := Reply(ack);
      if ok {
        Sit(negotiated.(done := true), parked);
      }
    }

    method Reply(ack: seq<byte>) returns (ok: bool)
      requires Valid()
      modifies `net, `wire, `greeting, `clean
      ensures Valid() && ok == Greet(old(View()).feed.out, ack).1
      ensures View() == old(View()).(feed := old(View()).feed.(out := Greet(old(View()).feed.out, ack).0))
    {
      hide Greet;
      ok := SendGreeting(ack);
    }

    method Sit(s: Seat, parked: bool)
      requires Valid() && s.isWs == seat.isWs
      modifies `seat, `waitingKeyframe
      ensures Valid() && View() == old(View()).(seat := s, feed := old(View()).feed.(waiting := parked))
    {
      seat := s;
      waitingKeyframe := parked;
    }

    /** What recv put after the bytes already held, and when. */
    method Hear(data: seq<byte>, now: nat)
      requires Valid() && !seat.isWs && |data| <= RX_CAPACITY - |Input()|
      modifies `rxLen, `lastSeen, `heard, rx
      ensures Valid() && View() == Hearing(old(View()), data, now)
    {
      Store(data);
      heard := heard + data;
      lastSeen := now;
    }

    /** What came out of a browser's frames, and when. */
    method HearUnwrapped(data: seq<byte>, now: nat)
      requires Valid() && seat.isWs
      modifies `wsRx, `lastSeen, `heard
      ensures Valid() && View() == Hearing(old(View()), data, now)
    {
      wsRx := wsRx + data;
      heard := heard + data;
      lastSeen := now;
    }
  }
}
