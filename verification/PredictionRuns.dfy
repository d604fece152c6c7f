/**
 The prediction chain over whole runs of the transport, and exactly when a step breaks it: a frame
 over the payload limit, a frame whose buffer cannot grow, or a greeting that does not park a client
 seated on a predictive codec, because the stream has left it for one that is not.

 The theorems carry a flag. Without it they are about the chains alone. With it they ask more: that
 every greeted Old 3DS client is also on the stream's own codec.
 */
module PredictionRuns {
  import opened Bytes
  import opened Wire
  import opened ClientModel
  import opened StreamModel
  import opened Transport
  import opened Invariant
  import opened Prediction
  import opened Broadcasting
  import opened Reassembly

  /** A greeted Old 3DS client on a predictive codec has a sound chain -- and, if agreement is asked
      for too, any greeted Old 3DS client is on the stream's codec. */
  predicate ClientChain(agree: bool, codec: byte, c: Client) {
    c.seat.used && c.seat.onOld3ds ==>
      if c.seat.done then (agree ==> c.seat.codec == codec) && (PredictiveCodec(c.seat.codec) ==> Chain(c.feed))
      else c.feed.log == []
  }

  predicate Chains(agree: bool, s: Stream) {
    forall i {:trigger ClientChain(agree, s.old3dsCodec, s.clients[i])} ::
      0 <= i < |s.clients| ==> ClientChain(agree, s.old3dsCodec, s.clients[i])
  }

  /** A greeted Old 3DS client on a predictive codec. */
  predicate Follows(c: Seat) {
    c.used && c.done && Predictive(c)
  }

  /** An up-to-date client due a frame that reaches nobody, or that it is starved of. */
  predicate Harmed(c: Client, m: Message, slot: Option<nat>, filter: AudioFilter, recent: nat, e: Env) {
    && Follows(c.seat) && m.kind == MSG_VIDEO && !c.feed.waiting
    && if Sendable(m) then Starved(c.seat, c.feed, m, slot, filter, recent, e)
       else Eligible(c.seat, slot, AnyClient)
  }

  predicate Harms(s: Stream, m: Message, slot: Option<nat>, filter: AudioFilter, es: seq<Env>)
    requires Shape(s) && |es| == MAX_CLIENTS && (slot.Some? ==> slot.value < STREAM_COUNT)
  {
    exists i :: 0 <= i < MAX_CLIENTS && Harmed(s.clients[i], m, slot, filter, Sized(s, m, slot).maxFrame, es[i])
  }

  /** The greeting at the front of client i's buffer is accepted and its answer is written. */
  predicate Seated(s: Stream, i: nat, answer: bool)
    requires Shape(s) && i < MAX_CLIENTS
  {
    var c := s.clients[i];
    var h := ParseHello(c.seat.onOld3ds, c.rx);
    h.HelloAccepted? && Greet(c.feed.out, AckFor(s, Introduced(s.udp, c.seat, h.caps, answer))).1
  }

  /** A greeting that seats an Old 3DS client on a codec the stream has left since it connected, and
      that matters: the client would have to be parked and is not, or agreement is asked for. */
  predicate Stale(agree: bool, s: Stream, i: nat, answer: bool)
    requires Shape(s) && i < MAX_CLIENTS
  {
    var c := s.clients[i].seat;
    && c.onOld3ds && !c.done && c.codec != s.old3dsCodec && Seated(s, i, answer)
    && (agree || (PredictiveCodec(c.codec) && !PredictiveCodec(s.old3dsCodec)))
  }

  /** A request that moves the Old 3DS stream, and every greeted client of it, off this codec. */
  predicate Switches(codec: byte, m: Message) {
    m.kind == MSG_CODEC && |m.payload| == 1 && Old3dsCodec(m.payload[0]) && m.payload[0] != codec
  }

  /** What a stale client may say in the same breath that ends its disagreement, or it. */
  predicate Repairs(codec: byte, d: Digest) {
    d.link.Shut? || exists k :: 0 <= k < |d.said| && Switches(codec, d.said[k])
  }

  /** The bytes behind the greeting repair what the greeting broke. */
  predicate RepairedAtOnce(s: Stream, i: nat)
    requires Shape(s) && i < MAX_CLIENTS
  {
    var c := s.clients[i];
    var h := ParseHello(c.seat.onOld3ds, c.rx);
    !h.HelloIncomplete? && Repairs(s.old3dsCodec, ReadMessages(c.rx[h.used..]))
  }

  /** Exactly the steps that keep every chain sound. */
  predicate Gentle(agree: bool, s: Stream, e: Event)
    requires Shape(s) && Enabled(s, e)
  {
    match e
    case Media(m, slot, filter, envs) => !Harms(s, m, slot, filter, envs)
    case NativeBytes(i, data, now, answer) =>
      var heard := Put(s, i, Hearing(s.clients[i], data, now));
      Stale(agree, heard, i, answer) ==> RepairedAtOnce(heard, i)
    case _ => true
  }

  lemma DropChains(agree: bool, s: Stream, i: nat)
    requires Chains(agree, s) && i < |s.clients|
    ensures Chains(agree, Drop(s, i))
  {
    hide Counts, Chain;
  }

  lemma DeliverChain(agree: bool, codec: byte, c: Client, m: Message, slot: Option<nat>, filter: AudioFilter,
                     recent: nat, e: Env)
    requires ClientChain(agree, codec, c) && Sendable(m)
    ensures ClientChain(agree, codec, Given(c, m, slot, filter, recent, e))
            <==> !Harmed(c, m, slot, filter, recent, e) || Given(c, m, slot, filter, recent, e) == NO_CLIENT
  {
    hide Flush, Wrap, Allowance, Chain, Starved;
    if Follows(c.seat) {
      DeliverChainExact(c.seat, c.feed, m, slot, filter, recent, e);
    }
    if m.kind != MSG_VIDEO {
      OnlyVideoStarves(c.seat, c.feed, m, slot, filter, recent, e);
    }
  }

  lemma StarvedStays(c: Client, m: Message, slot: Option<nat>, filter: AudioFilter, recent: nat, e: Env)
    requires Sendable(m) && Harmed(c, m, slot, filter, recent, e)
    ensures Given(c, m, slot, filter, recent, e) != NO_CLIENT
  {
    hide Flush, Wrap, Allowance;
    VideoLostExact(c.seat, c.feed, m, slot, filter, recent, e);
  }

  /** A frame nobody is sent breaks the chain of exactly the up-to-date clients it was meant for. */
  lemma MissedChainExact(agree: bool, codec: byte, c: Client, m: Message, slot: Option<nat>, filter: AudioFilter,
                         recent: nat, e: Env)
    requires ClientChain(agree, codec, c) && !Sendable(m)
    ensures ClientChain(agree, codec, Missed(c, m, slot)) <==> !Harmed(c, m, slot, filter, recent, e)
  {
    if ChainOk(c.feed.log) {
      LogFrame(c.feed.log, Frame(IsKey(m), false));
    }
  }

  /** A whole broadcast keeps every chain sound if and only if it harms nobody. */
  lemma BroadcastChainsExact(agree: bool, s: Stream, m: Message, slot: Option<nat>, filter: AudioFilter, es: seq<Env>)
    requires Shape(s) && Chains(agree, s) && |es| == MAX_CLIENTS && (slot.Some? ==> slot.value < STREAM_COUNT)
    ensures Chains(agree, Broadcast(s, m, slot, filter, es)) <==> !Harms(s, m, slot, filter, es)
  {
    hide ClientChain, Harmed, Given, Missed, Broadcast;
    var r := Broadcast(s, m, slot, filter, es);
    var recent := Sized(s, m, slot).maxFrame;
    BroadcastKeepsCodec(s, m, slot, filter, es);
    forall i | 0 <= i < MAX_CLIENTS
      ensures ClientChain(agree, s.old3dsCodec, r.clients[i]) <==> !Harmed(s.clients[i], m, slot, filter, recent, es[i])
    {
      var c := s.clients[i];
      BroadcastEach(s, m, slot, filter, es, i);
      if Sendable(m) {
        DeliverChain(agree, s.old3dsCodec, c, m, slot, filter, recent, es[i]);
        if Harmed(c, m, slot, filter, recent, es[i]) {
          StarvedStays(c, m, slot, filter, recent, es[i]);
        }
      } else {
        MissedChainExact(agree, s.old3dsCodec, c, m, slot, filter, recent, es[i]);
      }
    }
  }

  lemma BroadcastKeepsCodec(s: Stream, m: Message, slot: Option<nat>, filter: AudioFilter, es: seq<Env>)
    requires Shape(s) && |es| == MAX_CLIENTS && (slot.Some? ==> slot.value < STREAM_COUNT)
    ensures Broadcast(s, m, slot, filter, es).old3dsCodec == s.old3dsCodec
  {
  }

  /** Only video harms. */
  lemma BroadcastChains(agree: bool, s: Stream, m: Message, slot: Option<nat>, filter: AudioFilter, es: seq<Env>)
    requires Shape(s) && Chains(agree, s) && |es| == MAX_CLIENTS && (slot.Some? ==> slot.value < STREAM_COUNT)
    requires m.kind != MSG_VIDEO
    ensures Chains(agree, Broadcast(s, m, slot, filter, es))
  {
    hide Starved;
    BroadcastChainsExact(agree, s, m, slot, filter, es);
  }

  lemma {:induction false} EvictChains(agree: bool, s: Stream, n: nat, peer: nat)
    requires Chains(agree, s) && n <= |s.clients|
    ensures Chains(agree, EvictTo(s, n, peer))
  {
    hide ClientChain, Counts;
    if n > 0 {
      EvictChains(agree, s, n - 1, peer);
      DropChains(agree, EvictTo(s, n - 1, peer), n - 1);
    }
  }

  lemma PutChains(agree: bool, s: Stream, i: nat, c: Client)
    requires Chains(agree, s) && i < |s.clients|
    ensures Chains(agree, Put(s, i, c)) <==> ClientChain(agree, s.old3dsCodec, c)
    ensures Chains(agree, Recount(Put(s, i, c))) <==> ClientChain(agree, s.old3dsCodec, c)
  {
    hide ClientChain, Counts;
    assert Put(s, i, c).clients[i] == c;
  }

  /** Being told about the stream touches neither the seat nor the chain. */
  lemma ToldChain(s: Stream, c: Client)
    requires Shape(s)
    ensures Told(s, c).seat == c.seat && Told(s, c).feed.waiting == c.feed.waiting
    ensures Told(s, c).feed.log == c.feed.log
  {
  }

  /** A greeting starts a client on a sound chain, exactly unless it seats one the stream has left. */
  lemma HelloChainExact(agree: bool, s: Stream, i: nat, answer: bool)
    requires Inv(s) && Chains(agree, s) && i < MAX_CLIENTS
    requires s.clients[i].seat.used && !s.clients[i].seat.done
    ensures Chains(agree, HandleHello(s, i, answer)) <==> !Stale(agree, s, i, answer)
  {
    hide Greet, AckFor, Told, Counts, FeedOk, Browsers, ConsolesDistinct, ParseHello, Recount;
    var c := s.clients[i];
    assert ClientOk(c) && ClientChain(agree, s.old3dsCodec, c);
    DropChains(agree, s, i);
    var h := ParseHello(c.seat.onOld3ds, c.rx);
    if h.HelloAccepted? {
      var seat := Introduced(s.udp, c.seat, h.caps, answer);
      var parked := seat.onOld3ds && PredictiveCodec(s.old3dsCodec);
      var c1 := Welcomed(c, h.used, seat, AckFor(s, seat), parked).0;
      ToldChain(s, c1);
      PutChains(agree, s, i, Told(s, c1));
    }
  }

  /** Every entry but one is as it should be; that one is seated on a codec the stream has left. */
  predicate OneStale(agree: bool, s: Stream, i: nat) {
    && i < |s.clients|
    && (forall j :: 0 <= j < |s.clients| && j != i ==> ClientChain(agree, s.old3dsCodec, s.clients[j]))
    && s.clients[i].seat.used && s.clients[i].seat.done && s.clients[i].seat.onOld3ds
    && s.clients[i].seat.codec != s.old3dsCodec && !ClientChain(agree, s.old3dsCodec, s.clients[i])
  }

  lemma StaleHello(agree: bool, s: Stream, i: nat, answer: bool)
    requires Inv(s) && Chains(agree, s) && i < MAX_CLIENTS && s.clients[i].seat.used && Stale(agree, s, i, answer)
    ensures var c := s.clients[i];
            var r := HandleHello(s, i, answer);
            var h := ParseHello(c.seat.onOld3ds, c.rx);
            OneStale(agree, r, i) && r.old3dsCodec == s.old3dsCodec && r.clients[i].rx == c.rx[h.used..]
  {
    hide Greet, AckFor, Told, Counts, FeedOk, Browsers, ConsolesDistinct, ParseHello, ClientChain;
    var c := s.clients[i];
    assert ClientOk(c);
    var h := ParseHello(c.seat.onOld3ds, c.rx);
    var seat := Introduced(s.udp, c.seat, h.caps, answer);
    var c1 := Welcomed(c, h.used, seat, AckFor(s, seat), seat.onOld3ds && PredictiveCodec(s.old3dsCodec)).0;
    ToldChain(s, c1);
    ToldSameLine(s, c1);
    HelloChainExact(agree, s, i, answer);
  }

  lemma OneStaleIsUnsound(agree: bool, s: Stream, i: nat)
    requires OneStale(agree, s, i)
    ensures !Chains(agree, s)
  {
  }

  lemma DropRepairs(agree: bool, s: Stream, i: nat)
    requires OneStale(agree, s, i)
    ensures Chains(agree, Drop(s, i))
  {
    hide Counts, Chain;
  }

  /** One message of a stale client: a switch mends everything, anything else changes nothing. */
  lemma StalePiece(agree: bool, s: Stream, i: nat, p: Piece)
    requires Inv(s) && OneStale(agree, s, i) && p.Piece? && HEADER_SIZE <= p.used <= |s.clients[i].rx|
    ensures var r := HandlePiece(s, i, p);
            if Switches(s.old3dsCodec, p.message) then Chains(agree, r) && r.clients[i].seat.done
            else OneStale(agree, r, i) && r.old3dsCodec == s.old3dsCodec && r.clients[i].rx == s.clients[i].rx[p.used..]
  {
    hide SwitchTo, AnnouncedCodec, Told, Counts, ClientChain;
    TakenChain(agree, s.old3dsCodec, s.clients[i], p);
    if Switches(s.old3dsCodec, p.message) {
      var codec := p.message.payload[0];
      MendedBySwitch(agree, s, i, codec);
      var r := SwitchTo(AnnouncedCodec(s, codec), MAX_CLIENTS, codec);
      TakenChain(agree, r.old3dsCodec, r.clients[i], p);
      PutChains(agree, r, i, AfterPiece(r.clients[i], p));
    }
  }

  lemma TakenChain(agree: bool, codec: byte, c: Client, p: Piece)
    requires p.Piece? && p.used <= |c.rx|
    ensures ClientChain(agree, codec, AfterPiece(c, p)) <==> ClientChain(agree, codec, c)
  {
    hide Chain;
  }

  lemma MendedBySwitch(agree: bool, s: Stream, i: nat, codec: byte)
    requires Shape(s) && OneStale(agree, s, i)
    ensures var r := SwitchTo(AnnouncedCodec(s, codec), MAX_CLIENTS, codec);
            Chains(agree, r) && r.old3dsCodec == codec && ClientChain(agree, codec, r.clients[i])
            && r.clients[i].seat.done
            && r.clients[i].rx == s.clients[i].rx
  {
    hide Told;
    var s1 := AnnouncedCodec(s, codec);
    var r := SwitchTo(s1, MAX_CLIENTS, codec);
    forall j | 0 <= j < MAX_CLIENTS
      ensures ClientChain(agree, codec, r.clients[j]) && r.clients[j].seat.done == s.clients[j].seat.done
    {
      assert j != i ==> ClientChain(agree, s.old3dsCodec, s.clients[j]);
      ToldChain(s1, Retuned(s.clients[j], codec, PredictiveCodec(codec)));
    }
    ToldSameLine(s1, Retuned(s.clients[i], codec, PredictiveCodec(codec)));
  }

  /** The message loop mends a stale client's table exactly when what it says does. */
  lemma {:induction false} StaleMessagesExact(agree: bool, s: Stream, i: nat)
    requires Inv(s) && i < MAX_CLIENTS && OneStale(agree, s, i)
    ensures Chains(agree, HandleMessages(s, i, RX_CAPACITY))
            <==> Repairs(s.old3dsCodec, ReadMessages(s.clients[i].rx))
    decreases |s.clients[i].rx|
  {
    hide ClientsOk, Browsers, ConsolesDistinct, HandlePiece, Counts, NextPiece, ClientChain, Switches, OneStale;
    var b := s.clients[i].rx;
    var p := NextPiece(b, RX_CAPACITY);
    if p.Piece? {
      StaleIsUsed(agree, s, i);
      PieceInv(s, i, p);
      StalePiece(agree, s, i, p);
      var d := ReadMessages(b[p.used..]);
      RepairsLater(s.old3dsCodec, p.message, d);
      if Switches(s.old3dsCodec, p.message) {
        MessagesChains(agree, HandlePiece(s, i, p), i, RX_CAPACITY);
      } else {
        StaleMessagesExact(agree, HandlePiece(s, i, p), i);
      }
    } else if p.TooBig? {
      DropRepairs(agree, s, i);
    } else {
      OneStaleIsUnsound(agree, s, i);
    }
  }

  lemma StaleIsUsed(agree: bool, s: Stream, i: nat)
    requires OneStale(agree, s, i)
    ensures s.clients[i].seat.used && s.clients[i].seat.done
  {
  }

  lemma RepairsLater(codec: byte, m: Message, d: Digest)
    ensures Repairs(codec, d.(said := [m] + d.said)) <==> Switches(codec, m) || Repairs(codec, d)
  {
    hide Switches;
    var all := [m] + d.said;
    assert all[0] == m;
    assert forall k :: 0 <= k < |d.said| ==> all[k + 1] == d.said[k];
  }

  lemma SwitchChains(agree: bool, s: Stream, codec: byte)
    requires Shape(s) && Chains(agree, s)
    ensures var r := SwitchTo(AnnouncedCodec(s, codec), MAX_CLIENTS, codec);
            Chains(agree, r) && forall j :: 0 <= j < MAX_CLIENTS ==> r.clients[j].seat.done == s.clients[j].seat.done
  {
    hide Told;
    var s1 := AnnouncedCodec(s, codec);
    var r := SwitchTo(s1, MAX_CLIENTS, codec);
    forall j | 0 <= j < MAX_CLIENTS
      ensures ClientChain(agree, codec, r.clients[j]) && r.clients[j].seat.done == s.clients[j].seat.done
    {
      assert ClientChain(agree, s.old3dsCodec, s.clients[j]);
      ToldChain(s1, Retuned(s.clients[j], codec, PredictiveCodec(codec)));
    }
  }

  lemma DispatchChains(agree: bool, s: Stream, i: nat, m: Message)
    requires Shape(s) && Chains(agree, s) && i < MAX_CLIENTS && s.clients[i].seat.done
    ensures Chains(agree, Dispatch(s, i, m).0)
    ensures Dispatch(s, i, m).0.clients[i].seat.done
  {
    hide Told, SwitchTo, AnnouncedCodec, ClientChain;
    var c := s.clients[i];
    if m.kind == MSG_CODEC && c.seat.onOld3ds && WantsOld3dsCodec(s, m) {
      SwitchChains(agree, s, m.payload[0]);
    } else if m.kind == MSG_CODEC && !c.seat.onOld3ds && WantsCodec(s, c.seat, m) {
      RetunedChain(agree, s, c, m.payload[0]);
      PutChains(agree, s, i, Told(s, Retuned(c, m.payload[0], c.feed.waiting)));
    }
  }

  lemma RetunedChain(agree: bool, s: Stream, c: Client, codec: byte)
    requires Shape(s) && !c.seat.onOld3ds
    ensures var r := Told(s, Retuned(c, codec, c.feed.waiting));
            ClientChain(agree, s.old3dsCodec, r) && r.seat.done == c.seat.done
  {
    hide Told;
    ToldChain(s, Retuned(c, codec, c.feed.waiting));
  }

  lemma PieceChains(agree: bool, s: Stream, i: nat, p: Piece)
    requires Inv(s) && Chains(agree, s) && i < MAX_CLIENTS && s.clients[i].seat.done
    requires p.Piece? && HEADER_SIZE <= p.used <= |s.clients[i].rx|
    ensures Chains(agree, HandlePiece(s, i, p)) && HandlePiece(s, i, p).clients[i].seat.done
  {
    hide Dispatch, Counts, Chain;
    var d := Dispatch(s, i, p.message);
    DispatchChains(agree, s, i, p.message);
    assert ClientChain(agree, d.0.old3dsCodec, d.0.clients[i]);
    PutChains(agree, d.0, i, AfterPiece(d.0.clients[i], p));
  }

  lemma {:induction false} MessagesChains(agree: bool, s: Stream, i: nat, capacity: nat)
    requires Inv(s) && Chains(agree, s) && i < MAX_CLIENTS && HEADER_SIZE <= capacity
    requires s.clients[i].seat.used && s.clients[i].seat.done
    ensures Chains(agree, HandleMessages(s, i, capacity))
    decreases |s.clients[i].rx|
  {
    hide ClientsOk, Browsers, ConsolesDistinct, HandlePiece, Counts, NextPiece, ClientChain;
    var p := NextPiece(s.clients[i].rx, capacity);
    DropChains(agree, s, i);
    if p.Piece? {
      PieceInv(s, i, p);
      PieceChains(agree, s, i, p);
      MessagesChains(agree, HandlePiece(s, i, p), i, capacity);
    }
  }

  lemma ReceiveChainsExact(agree: bool, s: Stream, i: nat, data: seq<byte>, now: nat, answer: bool)
    requires Inv(s) && Chains(agree, s) && i < MAX_CLIENTS && s.clients[i].seat.used
    ensures var heard := Put(s, i, Hearing(s.clients[i], data, now));
            Chains(agree, Receive(s, i, data, now, answer))
            <==> (Stale(agree, heard, i, answer) ==> RepairedAtOnce(heard, i))
  {
    hide ClientsOk, Browsers, ConsolesDistinct, Counts, HandleHello, HandleMessages, Chain, ClientChain,
         Seated, ReadMessages, ParseHello;
    var c := s.clients[i];
    var s1 := Put(s, i, Hearing(c, data, now));
    BufferInv(s, i, data, now);
    HeardChain(agree, s.old3dsCodec, c, data, now);
    PutChains(agree, s, i, Hearing(c, data, now));
    if c.seat.done {
      MessagesChains(agree, s1, i, RX_CAPACITY);
    } else {
      HelloInv(s1, i, answer);
      HelloChainExact(agree, s1, i, answer);
      var s2 := HandleHello(s1, i, answer);
      if Stale(agree, s1, i, answer) {
        StaleHello(agree, s1, i, answer);
        StaleHasGreeted(agree, s1, i, answer);
        StaleMessagesExact(agree, s2, i);
      } else if s2.clients[i].seat.used && s2.clients[i].seat.done {
        MessagesChains(agree, s2, i, RX_CAPACITY);
      }
    }
  }

  lemma StaleHasGreeted(agree: bool, s: Stream, i: nat, answer: bool)
    requires Shape(s) && i < MAX_CLIENTS && Stale(agree, s, i, answer)
    ensures ParseHello(s.clients[i].seat.onOld3ds, s.clients[i].rx).HelloAccepted?
  {
  }

  lemma HeardChain(agree: bool, codec: byte, c: Client, data: seq<byte>, now: nat)
    requires ClientChain(agree, codec, c)
    ensures ClientChain(agree, codec, Hearing(c, data, now))
  {
    hide Chain;
  }

  /** Any step at all keeps every chain sound if and only if it is gentle. */
  lemma StepChainsExact(agree: bool, s: Stream, e: Event)
    requires Inv(s) && Chains(agree, s) && Enabled(s, e)
    ensures Chains(agree, Step(s, e)) <==> Gentle(agree, s, e)
  {
    hide Broadcast, Counts, Browsers, ConsolesDistinct, ClientsOk, ClientChain, Told, FeedOk, Harms, Stale,
         HandleMessages, Receive, SendNow, Ponged, EvictTo, Ack, StreamInfo, SharedSettings, RepairedAtOnce;
    match e {
      case Media(m, slot, filter, envs) => BroadcastChainsExact(agree, s, m, slot, filter, envs);
      case StreamShape(slot, w, h, envs) =>
        var s1 := s.(groups := s.groups[slot := s.groups[slot].(width := w, height := h, known := true)]);
        BroadcastChains(agree, s1, Message(MSG_STREAM_INFO, 0, StreamInfo(w, h, SlotCodec(s, slot))),
                        Some(slot), AnyClient, envs);
      case Settings(slot, w, h, fps, kbps, mjpeg, envs) =>
        var sh := SharedSettings(w, h, fps, kbps, SlotCodec(s, slot), mjpeg);
        var s1 := s.(groups := s.groups[slot := s.groups[slot].(shared := sh, sharedKnown := true)]);
        BroadcastChains(agree, s1, Message(MSG_SHARED, 0, sh), Some(slot), AnyClient, envs);
      case BrowserArrives(control, now, net) => AdoptChains(agree, s, control, now, net);
      case NativeArrives(door, peer, now, net) => AcceptChains(agree, s, door, peer, now, net);
      case NativeBytes(i, data, now, answer) => ReceiveChainsExact(agree, s, i, data, now, answer);
      case BrowserBytes(i, data, capacity, now) => BrowserChains(agree, s, i, data, capacity, now);
      case BrowserPinged(i, payload, now) => PongedChains(agree, s, i, payload, now);
      case Closed(i) => DropChains(agree, s, i);
      case Nothing(i, now) => QuietChains(agree, s, i, now);
      case _ =>
    }
  }

  lemma AdoptChains(agree: bool, s: Stream, control: bool, now: nat, net: seq<int>)
    requires Shape(s) && Chains(agree, s)
    ensures Chains(agree, Adopt(s, control, now, net).0)
  {
    hide Told, SendNow, Ack, Browsers, Counts, Chain;
    var i := FirstFree(s.clients);
    if i < MAX_CLIENTS {
      var ack := Ack(control, 0, PictureWidth(s, STREAM_WEB), PictureHeight(s, STREAM_WEB),
                     CODEC_H264, CODEC_OPUS, AUDIO_RATE);
      var a := SendNow(true, FreshFeed(net).out, Message(MSG_HELLO_ACK, 0, ack));
      var c := Client(BrowserSeat(control), NO_FEED.(out := a.0), [], [], [], now, 0);
      ToldChain(s, c);
      PutChains(agree, s, i, Told(s, c));
      PutChains(agree, s, i, NO_CLIENT);
    }
  }

  lemma AcceptChains(agree: bool, s: Stream, door: Door, peer: nat, now: nat, net: seq<int>)
    requires Shape(s) && Chains(agree, s)
    ensures Chains(agree, Accept(s, door, peer, now, net))
  {
    hide EvictTo, Counts, Chain;
    EvictChains(agree, s, MAX_CLIENTS, peer);
    var s1 := if door.WiiuDoor? && peer != 0 then EvictTo(s, MAX_CLIENTS, peer) else s;
    var i := FirstFree(s1.clients);
    if i < MAX_CLIENTS {
      PutChains(agree, s1, i, Client(NewcomerSeat(s1.old3dsCodec, door, peer), FreshFeed(net), [], [], [], now, 0));
    }
  }

  lemma BrowserChains(agree: bool, s: Stream, i: nat, data: seq<byte>, capacity: nat, now: nat)
    requires Inv(s) && Chains(agree, s) && i < MAX_CLIENTS && HEADER_SIZE <= capacity
    requires s.clients[i].seat.used && s.clients[i].seat.isWs
    ensures Chains(agree, BrowserData(s, i, data, capacity, now))
  {
    hide Counts, Browsers, ConsolesDistinct, FeedOk, Chain;
    var c := s.clients[i];
    assert ClientOk(c);
    BufferInv(s, i, data, now);
    PutChains(agree, s, i, Hearing(c, data, now));
    MessagesChains(agree, Put(s, i, Hearing(c, data, now)), i, capacity);
  }

  lemma PongedChains(agree: bool, s: Stream, i: nat, payload: seq<byte>, now: nat)
    requires Shape(s) && Chains(agree, s) && i < MAX_CLIENTS
    ensures Chains(agree, Ponged(s, i, payload, now))
  {
    hide AnswerPing;
    assert ClientChain(agree, s.old3dsCodec, s.clients[i]);
    PutChains(agree, s, i, Answered(s.clients[i], payload, now));
  }

  lemma QuietChains(agree: bool, s: Stream, i: nat, now: nat)
    requires Shape(s) && Chains(agree, s) && i < MAX_CLIENTS
    ensures Chains(agree, Quiet(s, i, now))
  {
    hide Counts, SendNow;
    DropChains(agree, s, i);
    var c := s.clients[i];
    assert ClientChain(agree, s.old3dsCodec, c);
    PutChains(agree, s, i, Probed(c, now));
  }

  /** A run whose every step was gentle. */
  predicate GentleRun(agree: bool, s: Stream, es: seq<Event>, r: Stream)
    requires Shape(s)
    decreases |es|
  {
    if es == [] then r == s
    else Enabled(s, es[0]) && Gentle(agree, s, es[0]) && GentleRun(agree, Step(s, es[0]), es[1..], r)
  }

  /** Every chain is sound at every point of a run. */
  predicate SoundThroughout(agree: bool, s: Stream, es: seq<Event>)
    requires Shape(s)
    decreases |es|
  {
    Chains(agree, s) && (es == [] || (Enabled(s, es[0]) && SoundThroughout(agree, Step(s, es[0]), es[1..])))
  }

  /** The runs that keep every chain sound throughout are the gentle ones, and no others. */
  lemma {:induction false} RunChainsExact(agree: bool, s: Stream, es: seq<Event>, r: Stream)
    requires Inv(s) && Chains(agree, s) && Run(s, es, r)
    ensures SoundThroughout(agree, s, es) <==> GentleRun(agree, s, es, r)
    ensures GentleRun(agree, s, es, r) ==> Chains(agree, r)
    decreases |es|
  {
    hide Step, Gentle, ClientsOk, Browsers, ConsolesDistinct, Counts, ClientChain, Enabled, Chains;
    if es != [] {
      StepInv(s, es[0]);
      StepChainsExact(agree, s, es[0]);
      if Chains(agree, Step(s, es[0])) {
        RunChainsExact(agree, Step(s, es[0]), es[1..], r);
      } else {
        UnsoundNow(agree, Step(s, es[0]), es[1..]);
      }
    }
  }

  lemma UnsoundNow(agree: bool, s: Stream, es: seq<Event>)
    requires Shape(s) && !Chains(agree, s)
    ensures !SoundThroughout(agree, s, es)
  {
  }

  /**
   Whatever the sockets do over a whole run, an Old 3DS client on a predictive codec is handed no
   frame it cannot decode: every frame it was given goes back through frames it was given, each
   the very next one broadcast, to a keyframe it was given.
   */
  lemma PredictionSoundAlways(udp: bool, es: seq<Event>, r: Stream, i: nat, n: nat) returns (k: nat)
    requires Run(Initial(udp), es, r) && GentleRun(false, Initial(udp), es, r) && i < |r.clients|
    requires r.clients[i].seat.used && r.clients[i].seat.done && Predictive(r.clients[i].seat)
    requires n < |r.clients[i].feed.log| && r.clients[i].feed.log[n].accepted
    ensures k <= n && r.clients[i].feed.log[k].key
    ensures forall j :: k <= j <= n ==> r.clients[i].feed.log[j].accepted
  {
    InitialInv(udp);
    RunChainsExact(false, Initial(udp), es, r);
    assert ClientChain(false, r.old3dsCodec, r.clients[i]);
    k := Decodable(r.clients[i].feed.log, n);
  }

  /** The codec can move under an Old 3DS client that has connected and not yet been greeted. */
  lemma SwitchLeavesUngreetedBehind(s: Stream, codec: byte, j: nat)
    requires Inv(s) && j < MAX_CLIENTS && Old3dsCodec(codec) && s.old3dsCodec != codec
    requires s.clients[j].seat.used && s.clients[j].seat.onOld3ds && s.clients[j].seat.codec == s.old3dsCodec
    ensures var r := SwitchTo(AnnouncedCodec(s, codec), MAX_CLIENTS, codec);
            r.clients[j].seat.codec == r.old3dsCodec <==> s.clients[j].seat.done
  {
    hide GroupState;
  }
}
