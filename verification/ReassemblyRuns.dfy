/**
 Reassembly over whole runs: whatever else the transport does between two reads, what a native
 client has been heard to say is the parse of every byte it ever sent.
 */
module ReassemblyRuns {
  import opened Bytes
  import opened Wire
  import opened ClientModel
  import opened StreamModel
  import opened Transport
  import opened Invariant
  import opened Reassembly

  /** The conversation so far is the reading of everything received so far. */
  predicate HeardOk(c: Client) {
    c.seat.used && !c.seat.isWs ==>
      Read(c.seat.onOld3ds, Greeting, c.heard) == Digest(LinkOf(c), c.received, c.rx)
  }

  predicate AllHeard(s: Stream) {
    forall i {:trigger HeardOk(s.clients[i])} :: 0 <= i < |s.clients| ==> HeardOk(s.clients[i])
  }

  lemma LineKept(a: Client, b: Client)
    requires HeardOk(a) && (b.seat.used ==> SameLine(a, b))
    ensures HeardOk(b)
  {
  }

  lemma PutHeard(s: Stream, i: nat, c: Client)
    requires AllHeard(s) && i < |s.clients| && HeardOk(c)
    ensures AllHeard(Put(s, i, c)) && AllHeard(Recount(Put(s, i, c)))
  {
    hide HeardOk, Counts;
  }

  lemma DropHeard(s: Stream, i: nat)
    requires AllHeard(s) && i < |s.clients|
    ensures AllHeard(Drop(s, i))
  {
    hide Counts;
    LineKept(s.clients[i], NO_CLIENT);
    PutHeard(s, i, NO_CLIENT);
  }

  lemma DeliverAtHeard(s: Stream, i: nat, m: Message, slot: Option<nat>, filter: AudioFilter, e: Env)
    requires AllHeard(s) && i < |s.clients|
    ensures AllHeard(DeliverAt(s, i, m, slot, filter, e))
  {
    hide HeardOk, Deliver, Drop, AllHeard;
    var c := s.clients[i];
    var d := Deliver(c.seat, c.feed, m, slot, filter, s.maxFrame, e);
    DropHeard(s, i);
    HeardAt(s, i);
    LineKept(c, c.(feed := d.0));
    PutHeard(s, i, c.(feed := d.0));
  }

  lemma HeardAt(s: Stream, i: nat)
    requires AllHeard(s) && i < |s.clients|
    ensures HeardOk(s.clients[i])
  {
  }

  lemma {:induction false} DeliverToHeard(s: Stream, n: nat, m: Message, slot: Option<nat>,
                                          filter: AudioFilter, es: seq<Env>)
    requires AllHeard(s) && n <= |s.clients| == |es|
    ensures AllHeard(DeliverTo(s, n, m, slot, filter, es))
  {
    hide AllHeard, DeliverAt;
    if n > 0 {
      DeliverToHeard(s, n - 1, m, slot, filter, es);
      DeliverAtHeard(DeliverTo(s, n - 1, m, slot, filter, es), n - 1, m, slot, filter, es[n - 1]);
    }
  }

  lemma BroadcastHeard(s: Stream, m: Message, slot: Option<nat>, filter: AudioFilter, es: seq<Env>)
    requires Shape(s) && AllHeard(s) && |es| == MAX_CLIENTS && (slot.Some? ==> slot.value < STREAM_COUNT)
    ensures AllHeard(Broadcast(s, m, slot, filter, es))
  {
    hide DeliverTo, HeardOk;
    if Sendable(m) {
      DeliverToHeard(Sized(s, m, slot), MAX_CLIENTS, m, slot, filter, es);
    } else {
      var r := MissedByAll(s, m, slot);
      forall i | 0 <= i < |r.clients|
        ensures HeardOk(r.clients[i])
      {
        assert r.clients[i] == Missed(s.clients[i], m, slot);
        LineKept(s.clients[i], r.clients[i]);
      }
    }
  }

  lemma {:induction false} EvictHeard(s: Stream, n: nat, peer: nat)
    requires AllHeard(s) && n <= |s.clients|
    ensures AllHeard(EvictTo(s, n, peer))
  {
    hide HeardOk, Counts;
    if n > 0 {
      EvictHeard(s, n - 1, peer);
      DropHeard(EvictTo(s, n - 1, peer), n - 1);
    }
  }

  lemma AcceptHeard(s: Stream, door: Door, peer: nat, now: nat, net: seq<int>)
    requires Shape(s) && AllHeard(s)
    ensures AllHeard(Accept(s, door, peer, now, net))
  {
    hide EvictTo, Counts;
    EvictHeard(s, MAX_CLIENTS, peer);
    var s1 := if door.WiiuDoor? && peer != 0 then EvictTo(s, MAX_CLIENTS, peer) else s;
    var i := FirstFree(s1.clients);
    if i < MAX_CLIENTS {
      PutHeard(s1, i, Client(NewcomerSeat(s1.old3dsCodec, door, peer), FreshFeed(net), [], [], [], now, 0));
    }
  }

  lemma AdoptHeard(s: Stream, control: bool, now: nat, net: seq<int>)
    requires Shape(s) && AllHeard(s)
    ensures AllHeard(Adopt(s, control, now, net).0)
  {
    hide SendNow, Ack, Browsers, Counts, Told, FirstFree, Read;
    var i := FirstFree(s.clients);
    if i < MAX_CLIENTS {
      var ack := Ack(control, 0, PictureWidth(s, STREAM_WEB), PictureHeight(s, STREAM_WEB),
                     CODEC_H264, CODEC_OPUS, AUDIO_RATE);
      var a := SendNow(true, FreshFeed(net).out, Message(MSG_HELLO_ACK, 0, ack));
      var c := Client(BrowserSeat(control), NO_FEED.(out := a.0), [], [], [], now, 0);
      ToldSameLine(s, c);
      PutHeard(s, i, Told(s, c));
      PutHeard(s, i, NO_CLIENT);
    }
  }

  lemma QuietHeard(s: Stream, i: nat, now: nat)
    requires Shape(s) && AllHeard(s) && i < MAX_CLIENTS
    ensures AllHeard(Quiet(s, i, now))
  {
    hide Counts, SendNow, HeardOk;
    DropHeard(s, i);
    LineKept(s.clients[i], Probed(s.clients[i], now));
    PutHeard(s, i, Probed(s.clients[i], now));
  }

  lemma PongedHeard(s: Stream, i: nat, payload: seq<byte>, now: nat)
    requires Shape(s) && AllHeard(s) && i < MAX_CLIENTS
    ensures AllHeard(Ponged(s, i, payload, now))
  {
    hide AnswerPing, HeardOk;
    LineKept(s.clients[i], Answered(s.clients[i], payload, now));
    PutHeard(s, i, Answered(s.clients[i], payload, now));
  }

  // ------------------------------------------------------------------ receiving

  /** A step in which client i's conversation moved and nobody else's did. */
  predicate OthersKept(s: Stream, r: Stream, i: nat) {
    |r.clients| == |s.clients|
    && forall j :: 0 <= j < |s.clients| && j != i ==> r.clients[j].seat.used ==> SameLine(s.clients[j], r.clients[j])
  }

  lemma PieceOthers(s: Stream, i: nat, p: Piece)
    requires Shape(s) && i < MAX_CLIENTS && p.Piece? && HEADER_SIZE <= p.used <= |s.clients[i].rx|
    ensures OthersKept(s, HandlePiece(s, i, p), i)
  {
    hide Dispatch, Counts;
    forall j | 0 <= j < MAX_CLIENTS && j != i
      ensures SameLine(s.clients[j], HandlePiece(s, i, p).clients[j])
    {
      DispatchKeepsLine(s, i, p.message, j);
    }
  }

  lemma {:induction false} MessagesOthers(s: Stream, i: nat, capacity: nat)
    requires Shape(s) && i < MAX_CLIENTS && HEADER_SIZE <= capacity
    ensures OthersKept(s, HandleMessages(s, i, capacity), i)
    decreases |s.clients[i].rx|
  {
    hide HandlePiece, Counts, NextPiece;
    var p := NextPiece(s.clients[i].rx, capacity);
    if p.Piece? {
      PieceOthers(s, i, p);
      MessagesOthers(HandlePiece(s, i, p), i, capacity);
    }
  }

  lemma WelcomedLine(udp: bool, c: Client, n: nat, caps: nat, answer: bool, ack: seq<byte>, parked: bool)
    requires n <= |c.rx|
    ensures SameLine(c.(seat := c.seat.(done := true), rx := c.rx[n..]),
                     Welcomed(c, n, Introduced(udp, c.seat, caps, answer), ack, parked).0)
  {
    hide Greet;
  }

  lemma PutOthers(s: Stream, i: nat, c: Client)
    requires i < |s.clients|
    ensures OthersKept(s, Put(s, i, c), i) && OthersKept(s, Recount(Put(s, i, c)), i) && OthersKept(s, Drop(s, i), i)
  {
    hide Counts;
  }

  /** What a greeting may make of the client that sent it; it is also lost if it cannot be answered. */
  predicate Greeted(c: Client, r: Client) {
    var h := ParseHello(c.seat.onOld3ds, c.rx);
    && (h.HelloIncomplete? ==> r == c)
    && (h.HelloRefused? ==> !r.seat.used)
    && (h.HelloAccepted? && r.seat.used ==> SameLine(c.(seat := c.seat.(done := true), rx := c.rx[h.used..]), r))
  }

  lemma HelloReads(s: Stream, i: nat, answer: bool)
    requires Shape(s) && i < MAX_CLIENTS && s.clients[i].seat.used
    ensures OthersKept(s, HandleHello(s, i, answer), i)
    ensures Greeted(s.clients[i], HandleHello(s, i, answer).clients[i])
  {
    hide Greet, AckFor, Told, Recount, ParseHello, Introduced, Welcomed, SameLine;
    var c := s.clients[i];
    var h := ParseHello(c.seat.onOld3ds, c.rx);
    PutOthers(s, i, NO_CLIENT);
    DropShuts(s, i);
    if h.HelloIncomplete? {
      OthersUntouched(s, i);
    } else if h.HelloAccepted? {
      var seat := Introduced(s.udp, c.seat, h.caps, answer);
      var ack := AckFor(s, seat);
      var parked := seat.onOld3ds && PredictiveCodec(s.old3dsCodec);
      var w := Welcomed(c, h.used, seat, ack, parked);
      WelcomedLine(s.udp, c, h.used, h.caps, answer, ack, parked);
      ToldSameLine(s, w.0);
      LineTransitive(c.(seat := c.seat.(done := true), rx := c.rx[h.used..]), w.0, Told(s, w.0));
      PutOthers(s, i, Told(s, w.0));
    }
  }

  lemma OthersUntouched(s: Stream, i: nat)
    ensures OthersKept(s, s, i)
  {
  }

  lemma LineTransitive(a: Client, b: Client, c: Client)
    requires SameLine(a, b) && SameLine(b, c)
    ensures SameLine(a, c)
  {
  }

  /** What one read makes of the client it came from. */
  predicate ReadBy(c: Client, r: Client, d: Digest) {
    (d.link.Shut? ==> !r.seat.used) && (r.seat.used ==> Advanced(c, r, d))
  }

  lemma AdvancedIsReadBy(c: Client, r: Client, d: Digest)
    requires Advanced(c, r, d)
    ensures ReadBy(c, r, d)
  {
  }

  lemma GreetedAdvances(c: Client, r: Client)
    requires Greeted(c, r) && c.seat.used && !c.seat.done && r.seat.used && !r.seat.done
    ensures ReadBy(c, r, Read(c.seat.onOld3ds, Greeting, c.rx))
  {
    hide ParseHello, ReadMessages;
    NothingSaid(c);
  }

  lemma NothingSaid(c: Client)
    requires c.seat.used && !c.seat.done
    ensures Advanced(c, c, Digest(Greeting, [], c.rx))
  {
    assert c.received + [] == c.received;
  }

  lemma GreetedThenRead(c: Client, m: Client, r: Client)
    requires Greeted(c, m) && c.seat.used && !c.seat.done && m.seat.used && m.seat.done
    requires Advanced(m, r, ReadMessages(m.rx))
    ensures ReadBy(c, r, Read(c.seat.onOld3ds, Greeting, c.rx))
  {
    hide ParseHello, ReadMessages;
  }

  lemma GreetedLost(c: Client, m: Client)
    requires Greeted(c, m) && !m.seat.used
    ensures ReadBy(c, m, Read(c.seat.onOld3ds, Greeting, c.rx))
  {
    hide ParseHello, ReadMessages;
  }

  /** One read: what a native client is then known to have said is the parse of leftover and new bytes. */
  lemma ReceiveReads(s: Stream, i: nat, data: seq<byte>, now: nat, answer: bool)
    requires Inv(s) && i < MAX_CLIENTS && s.clients[i].seat.used
    ensures var c := Hearing(s.clients[i], data, now);
            var r := Receive(s, i, data, now, answer);
            OthersKept(s, r, i) && ReadBy(c, r.clients[i], Read(c.seat.onOld3ds, LinkOf(c), c.rx))
  {
    hide ClientsOk, Browsers, ConsolesDistinct, Counts, HandleHello, HandleMessages, ReadMessages,
         Greeted, Advanced, Hearing;
    var c := Hearing(s.clients[i], data, now);
    HearingSeat(s.clients[i], data, now);
    var s1 := Put(s, i, c);
    BufferInv(s, i, data, now);
    if c.seat.done {
      MessagesRead(s1, i);
      MessagesOthers(s1, i, RX_CAPACITY);
      AdvancedIsReadBy(c, HandleMessages(s1, i, RX_CAPACITY).clients[i], ReadMessages(c.rx));
    } else {
      HelloInv(s1, i, answer);
      HelloReads(s1, i, answer);
      var s2 := HandleHello(s1, i, answer);
      var m := s2.clients[i];
      if !m.seat.used {
        GreetedLost(c, m);
      } else if !m.seat.done {
        GreetedAdvances(c, m);
      } else {
        MessagesRead(s2, i);
        MessagesOthers(s2, i, RX_CAPACITY);
        GreetedThenRead(c, m, HandleMessages(s2, i, RX_CAPACITY).clients[i]);
      }
    }
  }

  lemma HearingSeat(c: Client, data: seq<byte>, now: nat)
    ensures Hearing(c, data, now).seat == c.seat
  {
  }

  lemma ReceiveHeard(s: Stream, i: nat, data: seq<byte>, now: nat, answer: bool)
    requires Inv(s) && AllHeard(s) && i < MAX_CLIENTS && s.clients[i].seat.used && !s.clients[i].seat.isWs
    ensures AllHeard(Receive(s, i, data, now, answer))
  {
    hide ClientsOk, Browsers, ConsolesDistinct, Counts, Receive, Read;
    var c := s.clients[i];
    var r := Receive(s, i, data, now, answer);
    assert Hearing(c, data, now).rx == c.rx + data;
    ReceiveReads(s, i, data, now, answer);
    ReadSplit(c.seat.onOld3ds, Greeting, c.heard, data);
    assert HeardOk(c);
    forall j | 0 <= j < MAX_CLIENTS && j != i
      ensures HeardOk(r.clients[j])
    {
      LineKept(s.clients[j], r.clients[j]);
    }
  }

  /** A browser's bytes move only browsers' conversations and, through a codec, nobody's. */
  lemma BrowserHeard(s: Stream, i: nat, data: seq<byte>, capacity: nat, now: nat)
    requires Inv(s) && AllHeard(s) && i < MAX_CLIENTS && HEADER_SIZE <= capacity && s.clients[i].seat.isWs
    ensures AllHeard(BrowserData(s, i, data, capacity, now))
  {
    hide ClientsOk, Browsers, ConsolesDistinct, Counts, HandleMessages, Read;
    var s1 := Put(s, i, Hearing(s.clients[i], data, now));
    var r := HandleMessages(s1, i, capacity);
    MessagesOthers(s1, i, capacity);
    MessagesStayBrowser(s1, i, capacity);
    forall j | 0 <= j < MAX_CLIENTS && j != i
      ensures HeardOk(r.clients[j])
    {
      LineKept(s.clients[j], r.clients[j]);
    }
  }

  lemma {:induction false} MessagesStayBrowser(s: Stream, i: nat, capacity: nat)
    requires Shape(s) && i < MAX_CLIENTS && HEADER_SIZE <= capacity && s.clients[i].seat.isWs
    ensures var r := HandleMessages(s, i, capacity).clients[i]; r.seat.used ==> r.seat.isWs
    decreases |s.clients[i].rx|
  {
    hide HandlePiece, Counts, NextPiece;
    var p := NextPiece(s.clients[i].rx, capacity);
    if p.Piece? {
      PieceLine(s, i, p);
      MessagesStayBrowser(HandlePiece(s, i, p), i, capacity);
    }
  }

  // ------------------------------------------------------------------ whole runs

  lemma StepHeard(s: Stream, e: Event)
    requires Inv(s) && AllHeard(s) && Enabled(s, e)
    ensures AllHeard(Step(s, e))
  {
    hide Broadcast, Counts, Browsers, ConsolesDistinct, ClientsOk, HeardOk, Accept, Adopt,
         Quiet, Receive, BrowserData, StreamInfo, SharedSettings;
    match e {
      case Media(m, slot, filter, envs) => BroadcastHeard(s, m, slot, filter, envs);
      case StreamShape(slot, w, h, envs) =>
        var s1 := s.(groups := s.groups[slot := s.groups[slot].(width := w, height := h, known := true)]);
        BroadcastHeard(s1, Message(MSG_STREAM_INFO, 0, StreamInfo(w, h, SlotCodec(s, slot))),
                       Some(slot), AnyClient, envs);
      case Settings(slot, w, h, fps, kbps, mjpeg, envs) =>
        var sh := SharedSettings(w, h, fps, kbps, SlotCodec(s, slot), mjpeg);
        var s1 := s.(groups := s.groups[slot := s.groups[slot].(shared := sh, sharedKnown := true)]);
        BroadcastHeard(s1, Message(MSG_SHARED, 0, sh), Some(slot), AnyClient, envs);
      case BrowserArrives(control, now, net) => AdoptHeard(s, control, now, net);
      case NativeArrives(door, peer, now, net) => AcceptHeard(s, door, peer, now, net);
      case NativeBytes(i, data, now, answer) => ReceiveHeard(s, i, data, now, answer);
      case BrowserBytes(i, data, capacity, now) => BrowserHeard(s, i, data, capacity, now);
      case BrowserPinged(i, payload, now) => PongedHeard(s, i, payload, now);
      case Closed(i) => DropHeard(s, i);
      case Nothing(i, now) => QuietHeard(s, i, now);
      case _ =>
    }
  }

  lemma {:induction false} RunHeard(s: Stream, es: seq<Event>, r: Stream)
    requires Inv(s) && AllHeard(s) && Run(s, es, r)
    ensures Inv(r) && AllHeard(r)
    decreases |es|
  {
    hide Step, ClientsOk, Browsers, ConsolesDistinct, Counts, HeardOk;
    if es != [] {
      StepInv(s, es[0]);
      StepHeard(s, es[0]);
      RunHeard(Step(s, es[0]), es[1..], r);
    }
  }

  /**
   After any run, the messages acted on for a connected native client are the parse of all the
   bytes it ever sent, however they were cut and whatever happened in between; and its buffer has
   room for the next read.
   */
  lemma ReassemblySoundAlways(udp: bool, es: seq<Event>, r: Stream, i: nat)
    requires Run(Initial(udp), es, r) && i < |r.clients|
    requires r.clients[i].seat.used && !r.clients[i].seat.isWs
    ensures var c := r.clients[i];
            Read(c.seat.onOld3ds, Greeting, c.heard) == Digest(LinkOf(c), c.received, c.rx)
            && |c.rx| < RX_CAPACITY
  {
    hide ClientsOk, Browsers, ConsolesDistinct, Counts, Read;
    InitialInv(udp);
    RunHeard(Initial(udp), es, r);
    assert HeardOk(r.clients[i]);
    LeftoverFits(r.clients[i].seat.onOld3ds, Greeting, r.clients[i].heard);
  }
}
