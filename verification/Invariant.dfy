/**
 What holds of the client table after every step: the audience counts are right, browsers and
 consoles keep to their limits, and every client's output is well framed and bounded.
 */
module Invariant {
  import opened Bytes
  import opened Wire
  import opened ClientModel
  import opened StreamModel
  import opened Framing
  import opened Transport

  predicate SeatOk(c: Seat) {
    && (c.isWs ==> c.done && !c.onDrc && !c.onWiiu && !c.onOld3ds)
    && !(c.onDrc && c.onWiiu) && !(c.onDrc && c.onOld3ds) && !(c.onWiiu && c.onOld3ds)
    && (c.onOld3ds ==> Old3dsCodec(c.codec))
    && AudioOk(c)
  }

  /** The audio choices a seat can end up with. */
  predicate AudioOk(c: Seat) {
    && (c.pcmAudio ==> c.onWiiu || c.onOld3ds)
    && (c.pcmUdp ==> c.pcmAudio)
    && (c.opusUdp || c.adpcmUdp ==> c.onOld3ds && !c.pcmAudio)
    && !(c.opusUdp && c.adpcmUdp)
  }

  predicate FeedOk(c: Seat, f: Feed) {
    WellFramed(c.isWs, f.out) && |f.out.tail| <= PENDING_MAX && (!c.done ==> f.out.tail == [])
  }

  predicate ClientOk(c: Client) {
    (!c.seat.used ==> c == NO_CLIENT) && SeatOk(c.seat) && FeedOk(c.seat, c.feed)
  }

  predicate ClientsOk(cs: seq<Client>) {
    forall i {:trigger ClientOk(cs[i])} :: 0 <= i < |cs| ==> ClientOk(cs[i])
  }

  /** At most one connection from any one Wii U console. */
  predicate ConsolesDistinct(cs: seq<Client>) {
    forall i, j {:trigger SameConsole(cs[j].seat, cs[i].seat.peer)} ::
      0 <= i < j < |cs| && cs[i].seat.used && cs[i].seat.onWiiu && cs[i].seat.peer != 0 ==>
        !SameConsole(cs[j].seat, cs[i].seat.peer)
  }

  predicate Inv(s: Stream) {
    && Shape(s)
    && Old3dsCodec(s.old3dsCodec)
    && ClientsOk(s.clients)
    && s.live == Counts(s.clients)
    && Browsers(s.clients) <= MAX_BROWSERS
    && ConsolesDistinct(s.clients)
  }

  // ------------------------------------------------------------------ counting

  predicate SameAudience(a: Seat, b: Seat) {
    (a.used && a.done <==> b.used && b.done) && (a.used && a.done ==> Slot(a) == Slot(b))
  }

  lemma {:induction false} CountSame(a: seq<Client>, b: seq<Client>, slot: nat)
    requires |a| == |b|
    requires forall i :: 0 <= i < |a| ==> SameAudience(a[i].seat, b[i].seat)
    ensures Count(a, slot) == Count(b, slot)
  {
    if a != [] {
      var n := |a| - 1;
      assert SameAudience(a[n].seat, b[n].seat);
      CountSame(a[..n], b[..n], slot);
    }
  }

  lemma CountsSame(a: seq<Client>, b: seq<Client>)
    requires |a| == |b|
    requires forall i :: 0 <= i < |a| ==> SameAudience(a[i].seat, b[i].seat)
    ensures Counts(a) == Counts(b)
  {
    forall k | 0 <= k < STREAM_COUNT
      ensures Count(a, k) == Count(b, k)
    {
      CountSame(a, b, k);
    }
  }

  lemma {:induction false} BrowsersShrink(a: seq<Client>, b: seq<Client>)
    requires |a| == |b|
    requires forall i :: 0 <= i < |a| && b[i].seat.used && b[i].seat.isWs ==> a[i].seat.used && a[i].seat.isWs
    ensures Browsers(b) <= Browsers(a)
  {
    if a != [] {
      var n := |a| - 1;
      BrowsersShrink(a[..n], b[..n]);
    }
  }

  lemma {:induction false} BrowsersPut(cs: seq<Client>, i: nat, c: Client)
    requires i < |cs|
    ensures Browsers(cs[i := c]) <= Browsers(cs) + 1
  {
    var n := |cs| - 1;
    if i == n {
      assert cs[i := c][..n] == cs[..n];
    } else {
      assert cs[i := c][..n] == cs[..n][i := c];
      BrowsersPut(cs[..n], i, c);
    }
  }

  // ------------------------------------------------------------------ steps that only keep or lose clients

  /** The same connection, or none. */
  predicate Within(a: Seat, b: Seat) {
    b.used ==> a.used && b.isWs == a.isWs && b.onDrc == a.onDrc && b.onWiiu == a.onWiiu
               && b.onOld3ds == a.onOld3ds && b.peer == a.peer
  }

  predicate AllWithin(a: seq<Client>, b: seq<Client>) {
    |a| == |b|
    && forall i {:trigger Within(a[i].seat, b[i].seat)} :: 0 <= i < |a| ==> Within(a[i].seat, b[i].seat)
  }

  lemma WithinKeepsTable(a: seq<Client>, b: seq<Client>)
    requires AllWithin(a, b) && Browsers(a) <= MAX_BROWSERS && ConsolesDistinct(a)
    ensures Browsers(b) <= MAX_BROWSERS && ConsolesDistinct(b)
  {
    assert forall i :: 0 <= i < |a| ==> Within(a[i].seat, b[i].seat);
    BrowsersShrink(a, b);
    forall i, j | 0 <= i < j < |b| && b[i].seat.used && b[i].seat.onWiiu && b[i].seat.peer != 0
      ensures !SameConsole(b[j].seat, b[i].seat.peer)
    {
      assert Within(a[i].seat, b[i].seat) && Within(a[j].seat, b[j].seat);
      assert !SameConsole(a[j].seat, a[i].seat.peer);
    }
  }

  lemma NoClientOk()
    ensures ClientOk(NO_CLIENT)
  {
  }

  /** Putting an acceptable successor of client i in its place, with the counts settled or settled after. */
  lemma PutInv(s: Stream, i: nat, c: Client)
    requires Inv(s) && i < MAX_CLIENTS && ClientOk(c) && Within(s.clients[i].seat, c.seat)
    ensures Inv(Recount(Put(s, i, c)))
    ensures SameAudience(s.clients[i].seat, c.seat) ==> Inv(Put(s, i, c))
  {
    hide ClientOk, Count, Browsers, Slot;
    var cs := s.clients[i := c];
    assert AllWithin(s.clients, cs);
    WithinKeepsTable(s.clients, cs);
    if SameAudience(s.clients[i].seat, c.seat) {
      CountsSame(s.clients, cs);
    }
  }

  lemma DropInv(s: Stream, i: nat)
    requires Inv(s) && i < MAX_CLIENTS
    ensures Inv(Drop(s, i)) && AllWithin(s.clients, Drop(s, i).clients)
  {
    NoClientOk();
    PutInv(s, i, NO_CLIENT);
  }

  // ------------------------------------------------------------------ broadcast

  lemma DeliverFeedOk(c: Seat, f: Feed, m: Message, slot: Option<nat>, filter: AudioFilter, largest: nat, e: Env)
    requires FeedOk(c, f) && Sendable(m)
    ensures var d := Deliver(c, f, m, slot, filter, largest, e);
            !d.1.Dropped? ==> FeedOk(c, d.0)
  {
    DeliverFramed(c, f, m, slot, filter, largest, e);
    DeliverBounded(c, f, m, slot, filter, largest, e);
  }

  lemma DeliverAtInv(s: Stream, i: nat, m: Message, slot: Option<nat>, filter: AudioFilter, e: Env)
    requires Inv(s) && i < MAX_CLIENTS && Sendable(m)
    ensures Inv(DeliverAt(s, i, m, slot, filter, e))
  {
    hide Deliver, FeedOk, SeatOk;
    var c := s.clients[i];
    var d := Deliver(c.seat, c.feed, m, slot, filter, s.maxFrame, e);
    assert ClientOk(c);
    DeliverFeedOk(c.seat, c.feed, m, slot, filter, s.maxFrame, e);
    if d.1.Dropped? {
      DropInv(s, i);
    } else {
      IneligibleUnchanged(c.seat, c.feed, m, slot, filter, s.maxFrame, e);
      PutInv(s, i, c.(feed := d.0));
    }
  }

  lemma IneligibleUnchanged(c: Seat, f: Feed, m: Message, slot: Option<nat>, filter: AudioFilter,
                            largest: nat, e: Env)
    ensures !c.used ==> Deliver(c, f, m, slot, filter, largest, e).0 == f
  {
  }

  lemma {:induction false} DeliverToInv(s: Stream, n: nat, m: Message, slot: Option<nat>, filter: AudioFilter,
                                        es: seq<Env>)
    requires Inv(s) && n <= MAX_CLIENTS == |es| && Sendable(m)
    ensures Inv(DeliverTo(s, n, m, slot, filter, es))
  {
    if n > 0 {
      DeliverToInv(s, n - 1, m, slot, filter, es);
      DeliverAtInv(DeliverTo(s, n - 1, m, slot, filter, es), n - 1, m, slot, filter, es[n - 1]);
    }
  }

  /** Anything the table does not depend on may change freely. */
  lemma FrameInv(s: Stream, r: Stream)
    requires Inv(s) && Shape(r) && r.clients == s.clients && r.live == s.live
    requires Old3dsCodec(r.old3dsCodec)
    ensures Inv(r)
  {
  }

  lemma MissedInv(s: Stream, p: Message, slot: Option<nat>)
    requires Inv(s)
    ensures Inv(MissedByAll(s, p, slot))
  {
    var r := MissedByAll(s, p, slot);
    forall i | 0 <= i < MAX_CLIENTS
      ensures r.clients[i].seat == s.clients[i].seat && ClientOk(r.clients[i])
    {
      assert ClientOk(s.clients[i]);
      assert r.clients[i] == Missed(s.clients[i], p, slot);
    }
    assert AllWithin(s.clients, r.clients);
    WithinKeepsTable(s.clients, r.clients);
    CountsSame(s.clients, r.clients);
  }

  lemma BroadcastInv(s: Stream, p: Message, slot: Option<nat>, filter: AudioFilter, es: seq<Env>)
    requires Inv(s) && |es| == MAX_CLIENTS && (slot.Some? ==> slot.value < STREAM_COUNT)
    ensures Inv(Broadcast(s, p, slot, filter, es))
  {
    hide DeliverTo, ClientsOk, Counts, Browsers, ConsolesDistinct;
    if Sendable(p) {
      FrameInv(s, Sized(s, p, slot));
      DeliverToInv(Sized(s, p, slot), MAX_CLIENTS, p, slot, filter, es);
    } else {
      MissedInv(s, p, slot);
    }
  }

  // ------------------------------------------------------------------ direct sends

  lemma SendNowOk(c: Seat, f: Feed, m: Message)
    requires FeedOk(c, f)
    ensures FeedOk(c, f.(out := SendNow(c.isWs, f.out, m).0))
  {
    SendNowFramed(c.isWs, f.out, m);
  }

  lemma ToldOk(s: Stream, c: Client)
    requires Shape(s) && FeedOk(c.seat, c.feed)
    ensures Told(s, c).seat == c.seat && FeedOk(c.seat, Told(s, c).feed)
  {
    hide FeedOk, SendNow;
    var g := s.groups[Slot(c.seat)];
    var m1 := Message(MSG_STREAM_INFO, 0, StreamInfo(g.width, g.height, SlotCodec(s, Slot(c.seat))));
    SendNowOk(c.seat, c.feed, m1);
    var f1 := if g.known then c.feed.(out := SendNow(c.seat.isWs, c.feed.out, m1).0) else c.feed;
    SendNowOk(c.seat, f1, Message(MSG_SHARED, 0, g.shared));
  }

  lemma QuietInv(s: Stream, i: nat, now: nat)
    requires Inv(s) && i < MAX_CLIENTS && s.clients[i].seat.used
    ensures Inv(Quiet(s, i, now))
  {
    hide FeedOk, SendNow;
    var c := s.clients[i];
    assert ClientOk(c);
    var f := c.feed.(out := SendNow(c.seat.isWs, c.feed.out, PING).0);
    SendNowOk(c.seat, c.feed, PING);
    PutInv(s, i, c.(lastProbe := now, feed := f));
    DropInv(s, i);
  }

  lemma PongedInv(s: Stream, i: nat, payload: seq<byte>, now: nat)
    requires Inv(s) && i < MAX_CLIENTS && s.clients[i].seat.used && s.clients[i].seat.isWs
    requires |payload| <= RX_CAPACITY
    ensures Inv(Ponged(s, i, payload, now))
  {
    hide FeedOk, AnswerPing;
    var c := s.clients[i];
    assert ClientOk(c);
    AnswerPingOk(c.seat, c.feed, payload);
    PutInv(s, i, Answered(c, payload, now));
  }

  lemma AnswerPingOk(c: Seat, f: Feed, payload: seq<byte>)
    requires FeedOk(c, f) && c.isWs && |payload| <= RX_CAPACITY
    ensures FeedOk(c, f.(out := AnswerPing(f.out, payload).0))
  {
    hide AnswerPing, WellFramed;
    AnswerPingFramed(f.out, payload);
  }

  /** A browser's ping answered whole keeps its output well framed exactly when pong and queue commute. */
  lemma BrowserPingExact(s: Stream, i: nat, payload: seq<byte>, now: nat)
    requires Inv(s) && i < MAX_CLIENTS && s.clients[i].seat.used && s.clients[i].seat.isWs
    requires s.clients[i].feed.out.clean && AnswerPing(s.clients[i].feed.out, payload).1
    ensures Framed(true, Ponged(s, i, payload, now).clients[i].feed.out)
            <==> OneWord(PongFrame(payload), s.clients[i].feed.out.tail)
  {
    hide AnswerPing, Framed, OneWord;
    assert ClientOk(s.clients[i]);
    PongExact(s.clients[i].feed.out, payload);
  }

  /**
   The pass over a quiet native client that probes it keeps its output well framed exactly when
   nothing but earlier probes is queued: the probe does not wait behind an unfinished frame.
   */
  lemma QuietProbeExact(s: Stream, i: nat, now: nat)
    requires Inv(s) && i < MAX_CLIENTS && s.clients[i].seat.used && !s.clients[i].seat.isWs
    requires var c := s.clients[i];
             c.feed.out.clean && SendNow(false, c.feed.out, PING).1
             && IDLE_PROBE_MS < Since(now, c.lastSeen) <= IDLE_TIMEOUT_MS
             && Since(now, c.lastProbe) > IDLE_PROBE_MS
    ensures Framed(false, Quiet(s, i, now).clients[i].feed.out)
            <==> exists n: nat :: s.clients[i].feed.out.tail == Pings(n)
  {
    hide SendNow, Framed;
    assert ClientOk(s.clients[i]);
    ProbeExact(s.clients[i].feed.out);
  }

  // ------------------------------------------------------------------ arrivals

  lemma FreshFeedOk(c: Seat, net: seq<int>)
    ensures FeedOk(c, FreshFeed(net))
  {
  }

  lemma ConsolesPut(cs: seq<Client>, i: nat, c: Client)
    requires i < |cs| && ConsolesDistinct(cs)
    requires c.seat.used && c.seat.onWiiu && c.seat.peer != 0 ==>
               forall j :: 0 <= j < |cs| ==> !SameConsole(cs[j].seat, c.seat.peer)
    ensures ConsolesDistinct(cs[i := c])
  {
  }

  /** A free entry taken by a newcomer that is nobody's double. */
  lemma SeatInv(s: Stream, i: nat, c: Client)
    requires Inv(s) && i < MAX_CLIENTS && !s.clients[i].seat.used && ClientOk(c)
    requires c.seat.isWs ==> Browsers(s.clients) < MAX_BROWSERS
    requires c.seat.onWiiu && c.seat.peer != 0 ==>
               forall j :: 0 <= j < MAX_CLIENTS ==> !SameConsole(s.clients[j].seat, c.seat.peer)
    ensures Inv(Recount(Put(s, i, c)))
    ensures !c.seat.done ==> Inv(Put(s, i, c))
  {
    hide ClientOk, Count, Browsers, Slot, ConsolesDistinct;
    var cs := s.clients[i := c];
    ConsolesPut(s.clients, i, c);
    if c.seat.isWs {
      BrowsersPut(s.clients, i, c);
    } else {
      BrowsersShrink(s.clients, cs);
    }
    if !c.seat.done {
      CountsSame(s.clients, cs);
    }
  }

  lemma AdoptInv(s: Stream, control: bool, now: nat, net: seq<int>)
    requires Inv(s)
    ensures Inv(Adopt(s, control, now, net).0)
  {
    hide FeedOk, SendNow, Ack, Told, Counts;
    var i := FirstFree(s.clients);
    if i < MAX_CLIENTS && Browsers(s.clients) < MAX_BROWSERS {
      var c := BrowserSeat(control);
      var ack := Ack(control, 0, PictureWidth(s, STREAM_WEB), PictureHeight(s, STREAM_WEB),
                     CODEC_H264, CODEC_OPUS, AUDIO_RATE);
      var m := Message(MSG_HELLO_ACK, 0, ack);
      FreshFeedOk(c, net);
      SendNowOk(c, FreshFeed(net), m);
      var told := Told(s, Client(c, NO_FEED.(out := SendNow(true, FreshFeed(net).out, m).0), [], [], [], now, 0));
      ToldOk(s, Client(c, NO_FEED.(out := SendNow(true, FreshFeed(net).out, m).0), [], [], [], now, 0));
      assert s.clients[i] == NO_CLIENT by { assert ClientOk(s.clients[i]); }
      assert s.clients[i := NO_CLIENT] == s.clients;
      SeatInv(s, i, told);
    }
  }

  lemma {:induction false} EvictInv(s: Stream, n: nat, peer: nat)
    requires Inv(s) && n <= MAX_CLIENTS
    ensures Inv(EvictTo(s, n, peer))
    ensures forall j :: 0 <= j < n ==> !SameConsole(EvictTo(s, n, peer).clients[j].seat, peer)
  {
    hide ClientsOk, Counts, Browsers, ConsolesDistinct;
    if n > 0 {
      EvictInv(s, n - 1, peer);
      var s1 := EvictTo(s, n - 1, peer);
      DropInv(s1, n - 1);
      forall j | 0 <= j < n
        ensures !SameConsole(EvictTo(s, n, peer).clients[j].seat, peer)
      {
        assert Within(s1.clients[j].seat, Drop(s1, n - 1).clients[j].seat);
      }
    }
  }

  lemma AcceptInv(s: Stream, door: Door, peer: nat, now: nat, net: seq<int>)
    requires Inv(s)
    ensures Inv(Accept(s, door, peer, now, net))
  {
    hide FeedOk, Counts, Browsers, EvictTo;
    var evicts := door.WiiuDoor? && peer != 0;
    if evicts {
      EvictInv(s, MAX_CLIENTS, peer);
    }
    var s1 := if evicts then EvictTo(s, MAX_CLIENTS, peer) else s;
    var i := FirstFree(s1.clients);
    if i < MAX_CLIENTS {
      var c := NewcomerSeat(s1.old3dsCodec, door, peer);
      FreshFeedOk(c, net);
      SeatInv(s1, i, Client(c, FreshFeed(net), [], [], [], now, 0));
    }
  }

  // ------------------------------------------------------------------ what clients send

  lemma GreetOk(c: Seat, c': Seat, f: Feed, ack: seq<byte>, waiting: bool)
    requires FeedOk(c, f) && !c.done && !c.isWs && !c'.isWs
    ensures FeedOk(c', f.(out := Greet(f.out, ack).0, waiting := waiting))
  {
    GreetFramed(f.out, ack);
  }

  lemma HelloInv(s: Stream, i: nat, answer: bool)
    requires Inv(s) && i < MAX_CLIENTS && s.clients[i].seat.used && !s.clients[i].seat.done
    ensures Inv(HandleHello(s, i, answer))
  {
    hide FeedOk, Counts, Browsers, Greet, AckFor, Told;
    var c := s.clients[i];
    assert ClientOk(c);
    DropInv(s, i);
    var h := ParseHello(c.seat.onOld3ds, c.rx);
    if h.HelloAccepted? {
      var seat := Introduced(s.udp, c.seat, h.caps, answer);
      var parked := seat.onOld3ds && PredictiveCodec(s.old3dsCodec);
      var ack := AckFor(s, seat);
      GreetOk(c.seat, seat.(done := true), c.feed, ack, parked);
      var c1 := Welcomed(c, h.used, seat, ack, parked).0;
      ToldOk(s, c1);
      PutInv(s, i, Told(s, c1));
    }
  }

  lemma RetunedOk(s: Stream, c: Client, codec: byte, waiting: bool)
    requires Shape(s) && ClientOk(c) && c.seat.used && (c.seat.onOld3ds ==> Old3dsCodec(codec))
    ensures ClientOk(Told(s, Retuned(c, codec, waiting)))
    ensures Told(s, Retuned(c, codec, waiting)).seat == c.seat.(codec := codec)
  {
    hide Told;
    ToldOk(s, Retuned(c, codec, waiting));
  }

  lemma SwitchInv(s: Stream, codec: byte)
    requires Inv(s) && Old3dsCodec(codec)
    ensures var r := SwitchTo(AnnouncedCodec(s, codec), MAX_CLIENTS, codec);
            Inv(r) && AllWithin(s.clients, r.clients)
            && forall i :: 0 <= i < MAX_CLIENTS ==> r.clients[i].seat.used == s.clients[i].seat.used
  {
    hide Told, FeedOk, Counts, Browsers, ConsolesDistinct, CodecSlot;
    var s1 := AnnouncedCodec(s, codec);
    var r := SwitchTo(s1, MAX_CLIENTS, codec);
    forall i | 0 <= i < MAX_CLIENTS
      ensures ClientOk(r.clients[i]) && Within(s.clients[i].seat, r.clients[i].seat)
      ensures SameAudience(s.clients[i].seat, r.clients[i].seat)
      ensures r.clients[i].seat.used == s.clients[i].seat.used
    {
      var c := s.clients[i];
      assert ClientOk(c);
      if c.seat.used && c.seat.done && c.seat.onOld3ds {
        RetunedOk(s1, c, codec, PredictiveCodec(codec));
      }
    }
    WithinKeepsTable(s.clients, r.clients);
    CountsSame(s.clients, r.clients);
  }

  /** Everything a message does to the table, up to the recount the caller owes for a moved codec. */
  lemma DispatchInv(s: Stream, i: nat, m: Message)
    requires Inv(s) && i < MAX_CLIENTS && s.clients[i].seat.used
    ensures var d := Dispatch(s, i, m);
            Inv(Recount(d.0)) && (!d.1 ==> Inv(d.0)) && d.0.clients[i].seat.used
  {
    hide Told, FeedOk, Counts, Browsers;
    var c := s.clients[i];
    assert ClientOk(c);
    if m.kind == MSG_CODEC && c.seat.onOld3ds && WantsOld3dsCodec(s, m) {
      SwitchInv(s, m.payload[0]);
    } else if m.kind == MSG_CODEC && !c.seat.onOld3ds && WantsCodec(s, c.seat, m) {
      RetunedOk(s, c, m.payload[0], c.feed.waiting);
      PutInv(s, i, Told(s, Retuned(c, m.payload[0], c.feed.waiting)));
    }
  }

  lemma TakenInv(s: Stream, i: nat, p: Piece)
    requires Inv(Recount(s)) && i < MAX_CLIENTS && s.clients[i].seat.used
    requires p.Piece? && p.used <= |s.clients[i].rx|
    ensures Inv(Recount(Put(s, i, AfterPiece(s.clients[i], p))))
    ensures Inv(s) ==> Inv(Put(s, i, AfterPiece(s.clients[i], p)))
  {
    hide FeedOk, SeatOk, Counts, Browsers, ConsolesDistinct, Slot;
    var c := AfterPiece(s.clients[i], p);
    assert ClientOk(s.clients[i]);
    PutInv(Recount(s), i, c);
    FrameInv(Recount(Put(Recount(s), i, c)), Recount(Put(s, i, c)));
    if Inv(s) {
      PutInv(s, i, c);
    }
  }

  lemma PieceInv(s: Stream, i: nat, p: Piece)
    requires Inv(s) && i < MAX_CLIENTS && s.clients[i].seat.used
    requires p.Piece? && HEADER_SIZE <= p.used <= |s.clients[i].rx|
    ensures Inv(HandlePiece(s, i, p)) && HandlePiece(s, i, p).clients[i].seat.used
  {
    hide ClientsOk, Browsers, ConsolesDistinct, Dispatch, Counts;
    DispatchInv(s, i, p.message);
    TakenInv(Dispatch(s, i, p.message).0, i, p);
  }

  lemma {:induction false} MessagesInv(s: Stream, i: nat, capacity: nat)
    requires Inv(s) && i < MAX_CLIENTS && s.clients[i].seat.used && HEADER_SIZE <= capacity
    ensures Inv(HandleMessages(s, i, capacity))
    decreases |s.clients[i].rx|
  {
    hide ClientsOk, Browsers, ConsolesDistinct, HandlePiece, Counts, NextPiece;
    var p := NextPiece(s.clients[i].rx, capacity);
    DropInv(s, i);
    if p.Piece? {
      PieceInv(s, i, p);
      MessagesInv(HandlePiece(s, i, p), i, capacity);
    }
  }

  lemma BufferInv(s: Stream, i: nat, data: seq<byte>, now: nat)
    requires Inv(s) && i < MAX_CLIENTS && s.clients[i].seat.used
    ensures Inv(Put(s, i, Hearing(s.clients[i], data, now)))
  {
    hide FeedOk, SeatOk, Counts, Browsers, ConsolesDistinct, Slot;
    assert ClientOk(s.clients[i]);
    PutInv(s, i, Hearing(s.clients[i], data, now));
  }

  lemma ReceiveInv(s: Stream, i: nat, data: seq<byte>, now: nat, answer: bool)
    requires Inv(s) && i < MAX_CLIENTS && s.clients[i].seat.used
    ensures Inv(Receive(s, i, data, now, answer))
  {
    hide ClientsOk, Browsers, ConsolesDistinct, Counts, HandleHello, HandleMessages;
    var c := s.clients[i];
    BufferInv(s, i, data, now);
    var s1 := Put(s, i, Hearing(c, data, now));
    if !c.seat.done {
      HelloInv(s1, i, answer);
    }
    var s2 := if c.seat.done then s1 else HandleHello(s1, i, answer);
    if s2.clients[i].seat.used {
      MessagesInv(s2, i, RX_CAPACITY);
    }
  }

  // ------------------------------------------------------------------ whole runs

  /** Every step of every thread keeps the table sound. */
  lemma StepInv(s: Stream, e: Event)
    requires Inv(s) && Enabled(s, e)
    ensures Inv(Step(s, e))
  {
    hide Broadcast, Counts, Browsers, ConsolesDistinct, ClientsOk, HandleMessages, Receive, Quiet, Accept, Adopt;
    match e {
      case Media(m, slot, filter, envs) => BroadcastInv(s, m, slot, filter, envs);
      case StreamShape(slot, w, h, envs) =>
        var s1 := s.(groups := s.groups[slot := s.groups[slot].(width := w, height := h, known := true)]);
        FrameInv(s, s1);
        BroadcastInv(s1, Message(MSG_STREAM_INFO, 0, StreamInfo(w, h, SlotCodec(s, slot))),
                     Some(slot), AnyClient, envs);
      case Settings(slot, w, h, fps, kbps, mjpeg, envs) =>
        var sh := SharedSettings(w, h, fps, kbps, SlotCodec(s, slot), mjpeg);
        var s1 := s.(groups := s.groups[slot := s.groups[slot].(shared := sh, sharedKnown := true)]);
        FrameInv(s, s1);
        BroadcastInv(s1, Message(MSG_SHARED, 0, sh), Some(slot), AnyClient, envs);
      case BrowserArrives(control, now, net) => AdoptInv(s, control, now, net);
      case NativeArrives(door, peer, now, net) => AcceptInv(s, door, peer, now, net);
      case NativeBytes(i, data, now, answer) => ReceiveInv(s, i, data, now, answer);
      case BrowserBytes(i, data, capacity, now) =>
        BufferInv(s, i, data, now);
        MessagesInv(Put(s, i, Hearing(s.clients[i], data, now)), i, capacity);
      case BrowserPinged(i, payload, now) => PongedInv(s, i, payload, now);
      case Closed(i) => DropInv(s, i);
      case Nothing(i, now) => QuietInv(s, i, now);
      case _ => FrameInv(s, Step(s, e));
    }
  }

  lemma {:induction false} NobodyCounted(cs: seq<Client>, slot: nat)
    requires forall i :: 0 <= i < |cs| ==> cs[i] == NO_CLIENT
    ensures Count(cs, slot) == 0 && Browsers(cs) == 0
  {
    if cs != [] {
      NobodyCounted(cs[..|cs| - 1], slot);
    }
  }

  lemma InitialInv(udp: bool)
    ensures Inv(Initial(udp))
  {
    hide ClientOk;
    var s := Initial(udp);
    NoClientOk();
    forall k | 0 <= k < STREAM_COUNT
      ensures Count(s.clients, k) == 0
    {
      NobodyCounted(s.clients, k);
    }
    NobodyCounted(s.clients, 0);
    assert s.live == Counts(s.clients);
  }

  /** A run of steps each of which was possible when it was taken. */
  predicate Run(s: Stream, es: seq<Event>, r: Stream)
    requires Shape(s)
    decreases |es|
  {
    if es == [] then r == s else Enabled(s, es[0]) && Run(Step(s, es[0]), es[1..], r)
  }

  lemma {:induction false} RunInv(s: Stream, es: seq<Event>, r: Stream)
    requires Inv(s) && Run(s, es, r)
    ensures Inv(r)
    decreases |es|
  {
    hide Step, ClientsOk, Browsers, ConsolesDistinct, Counts;
    if es != [] {
      StepInv(s, es[0]);
      RunInv(Step(s, es[0]), es[1..], r);
    }
  }

  /**
   After any run, from the start, the counts the pipeline reads are the audiences there are, at
   most four clients are browsers, and no console holds two connections.
   */
  lemma TableSoundAlways(udp: bool, es: seq<Event>, r: Stream)
    requires Run(Initial(udp), es, r)
    ensures |r.live| == STREAM_COUNT
    ensures forall k :: 0 <= k < STREAM_COUNT ==> r.live[k] == Count(r.clients, k)
    ensures Browsers(r.clients) <= MAX_BROWSERS
    ensures ConsolesDistinct(r.clients)
  {
    InitialInv(udp);
    RunInv(Initial(udp), es, r);
  }

  /**
   After any run, a client whose direct sends were all clean has been written a prefix of what it
   was owed: its reader sees exactly the messages accepted for it, in order, and all of them once
   its queue is empty. No queue ever exceeds the bound.
   */
  lemma WireSoundAlways(udp: bool, es: seq<Event>, r: Stream, i: nat)
    requires Run(Initial(udp), es, r) && i < MAX_CLIENTS && |r.clients| == MAX_CLIENTS
    ensures var c := r.clients[i];
            var o := c.feed.out;
            && |o.tail| <= PENDING_MAX
            && (o.clean ==>
                  && Framed(c.seat.isWs, o)
                  && o.greeting <= o.wire
                  && ReadAll(c.seat.isWs, o.wire[|o.greeting|..]) <= o.sent
                  && (o.tail == [] ==> ReadAll(c.seat.isWs, o.wire[|o.greeting|..]) == o.sent))
  {
    hide Framed, ReadAll;
    InitialInv(udp);
    RunInv(Initial(udp), es, r);
    var c := r.clients[i];
    assert ClientOk(c);
    if c.feed.out.clean {
      WireReadsBack(c.seat.isWs, c.feed.out);
    }
  }
}
