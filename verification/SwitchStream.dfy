/**
 The transport object: eight client entries and the per-stream state around them, updated in
 place. Each method is one pass under the client lock, and is proved to do to the state exactly
 what StreamModel says; what that means over whole runs is in Invariant and PredictionRuns.
 */
module SwitchStreamObject {
  import opened Bytes
  import opened Wire
  import opened ClientModel
  import opened StreamModel
  import opened Broadcasting
  import opened SsClientObject

  class SwitchStream {
    const clients: seq<SsClient>
    var largest: seq<nat>
    var maxFrame: nat
    var old3dsCodec: byte
    var live: seq<nat>
    var dirty: bool
    var drcAvailable: bool
    var udp: bool
    var width: nat
    var height: nat
    var groups: seq<Group>

    ghost function Entries(): (es: set<object>)
      ensures forall i :: 0 <= i < |clients| ==> clients[i] in es && clients[i].rx in es
    {
      (set i | 0 <= i < |clients| :: clients[i] as object) + (set i | 0 <= i < |clients| :: clients[i].rx as object)
    }

    /** Eight entries, no two sharing anything. */
    ghost predicate Separate() {
      && |clients| == MAX_CLIENTS
      && (forall i, j :: 0 <= i < j < MAX_CLIENTS ==> clients[i] != clients[j] && clients[i].rx != clients[j].rx)
    }

    ghost predicate EntriesValid()
      reads Entries()
    {
      Separate() && forall i :: 0 <= i < MAX_CLIENTS ==> clients[i].Valid()
    }

    ghost predicate Valid()
      reads this, Entries()
    {
      && EntriesValid()
      && |largest| == STREAM_COUNT && |live| == STREAM_COUNT && |groups| == STREAM_COUNT
      && (forall k :: 0 <= k < STREAM_COUNT ==> |groups[k].shared| == 12)
    }

    ghost function Table(): (cs: seq<Client>)
      reads Entries()
      requires EntriesValid()
      ensures |cs| == MAX_CLIENTS
    {
      seq(MAX_CLIENTS, i requires 0 <= i < MAX_CLIENTS && EntriesValid() reads Entries() => clients[i].View())
    }

    ghost function View(): (s: Stream)
      reads this, Entries()
      requires Valid()
      ensures Shape(s)
    {
      Stream(Table(), largest, maxFrame, old3dsCodec, live, dirty, drcAvailable, udp, width, height, groups)
    }

    /** A step that leaves every entry but one alone. */
    twostate lemma OnlyEntry(i: nat)
      requires old(EntriesValid()) && i < MAX_CLIENTS && clients[i].Valid()
      requires forall j :: 0 <= j < MAX_CLIENTS && j != i ==> unchanged(clients[j]) && unchanged(clients[j].rx)
      ensures EntriesValid() && Table() == old(Table())[i := clients[i].View()]
    {
    }

    // ---------------------------------------------------------------- audience

    /** Recomputes who is watching what, and notes when that changed. */
    method RecountAudience()
      requires Valid()
      modifies `live, `dirty
      ensures Valid() && View() == Recount(old(View()))
    {
      var n: seq<nat> := seq(STREAM_COUNT, _ => 0);
      ghost var cs := Table();
      for i := 0 to MAX_CLIENTS
        invariant |n| == STREAM_COUNT
        invariant forall k :: 0 <= k < STREAM_COUNT ==> n[k] == Count(cs[..i], k)
      {
        var c := clients[i].seat;
        assert cs[i].seat == c;
        assert cs[..i + 1][..i] == cs[..i];
        if c.used && c.done {
          n := n[Slot(c) := n[Slot(c)] + 1];
        }
      }
      assert cs[..MAX_CLIENTS] == cs;
      assert n == Counts(cs);
      if n != live {
        live := n;
        dirty := true;
      }
    }

    method DropClient(i: nat)
      requires Valid() && i < MAX_CLIENTS
      modifies `live, `dirty, clients[i]
      ensures Valid() && View() == Drop(old(View()), i)
    {
      if clients[i].seat.used {
        DropAnyway(i);
      }
    }

    // ---------------------------------------------------------------- sending

    method OfferToEntry(i: nat, m: Message, slot: Option<nat>, filter: AudioFilter, e: Env)
      returns (v: Verdict)
      requires Valid() && i < MAX_CLIENTS
      modifies clients[i]
      ensures Valid()
      ensures var d := Deliver(old(clients[i].seat), old(clients[i].FeedView()), m, slot, filter, maxFrame, e);
              v == d.1
              && (!v.Dropped? ==> View() == Put(old(View()), i, old(clients[i].View()).(feed := d.0)))
              && (v.Dropped? ==> View() == Put(old(View()), i, clients[i].View())
                                 && clients[i].seat.used && old(clients[i].seat).used)
    {
      hide Deliver;
      var c := clients[i];
      v := c.DeliverMessage(m, slot, filter, maxFrame, e);
      OnlyEntry(i);
      if v.Dropped? {
        DroppedWasUsed(c.seat, old(c.FeedView()), m, slot, filter, maxFrame, e);
      }
    }

    /** One turn of the broadcast loop; says whether the client was passed over. */
    method DeliverToClient(i: nat, m: Message, slot: Option<nat>, filter: AudioFilter, e: Env)
      returns (skipped: bool)
      requires Valid() && i < MAX_CLIENTS
      modifies `live, `dirty, clients[i]
      ensures Valid() && View() == DeliverAt(old(View()), i, m, slot, filter, e)
      ensures skipped == HeldBackAt(old(View()), i, m, slot, filter, e)
    {
      hide Deliver, Counts, HeldBack;
      ghost var c := View().clients[i];
      SkippedIsHeldBack(c.seat, c.feed, m, slot, filter, maxFrame, e);
      var v := OfferToEntry(i, m, slot, filter, e);
      skipped := v.Skipped?;
      if v.Dropped? {
        ghost var gone := View().clients;
        DropClient(i);
        assert gone[i := NO_CLIENT] == old(View()).clients[i := NO_CLIENT];
      }
    }

    /** Decays the stream's largest recent frame, and takes it as the size to allow for. */
    method SizeAllowance(m: Message, slot: Option<nat>)
      requires Valid() && (slot.Some? ==> slot.value < STREAM_COUNT)
      requires m.kind == MSG_VIDEO ==> slot.Some?
      modifies `largest, `maxFrame
      ensures Valid() && View() == Sized(old(View()), m, slot)
    {
      if m.kind == MSG_VIDEO {
        var decayed := largest[slot.value] - largest[slot.value] / 16;
        var l := if |m.payload| > decayed then |m.payload| else decayed;
        largest := largest[slot.value := l];
        maxFrame := l;
      }
    }

    /** The whole of one send: sizes the allowance, then offers the message to every client. Says
        whether anybody was passed over. */
    method BroadcastFiltered(m: Message, slot: Option<nat>, filter: AudioFilter, es: seq<Env>)
      returns (skipped: bool)
      requires Valid() && |es| == MAX_CLIENTS && (slot.Some? ==> slot.value < STREAM_COUNT)
      requires m.kind == MSG_VIDEO ==> slot.Some?
      modifies this, Entries()
      ensures Valid() && View() == Broadcast(old(View()), m, slot, filter, es)
      ensures skipped == AnyHeldBack(old(View()), m, slot, filter, es)
    {
      hide DeliverAt, Sized, Table, HeldBackAt, HeldBackBefore;
      skipped := false;
      if |m.payload| > MAX_PAYLOAD {
        NoteMissed(m, slot);
        return;
      }
      SizeAllowance(m, slot);
      ghost var sized := View();
      NobodyBefore(sized, m, slot, filter, es);
      for i := 0 to MAX_CLIENTS
        invariant Valid() && View() == DeliverTo(sized, i, m, slot, filter, es)
        invariant skipped <==> HeldBackBefore(sized, i, m, slot, filter, es)
      {
        HeldBackNext(sized, i, m, slot, filter, es);
        var passed := DeliverToClient(i, m, slot, filter, es[i]);
        skipped := skipped || passed;
      }
    }

    /** A frame over the payload limit is sent to nobody; only the history records it. */
    ghost method NoteMissed(m: Message, slot: Option<nat>)
      requires Valid()
      modifies Entries()
      ensures Valid() && View() == MissedByAll(old(View()), m, slot)
    {
      var cs := Table();
      for i := 0 to MAX_CLIENTS
        invariant Valid()
        invariant forall j :: 0 <= j < MAX_CLIENTS ==>
                    Table()[j] == if j < i then Missed(cs[j], m, slot) else cs[j]
      {
        NoteMissedBy(i, m, slot);
      }
      assert Table() == MissedByAll(old(View()), m, slot).clients;
    }

    ghost method NoteMissedBy(i: nat, m: Message, slot: Option<nat>)
      requires Valid() && i < MAX_CLIENTS
      modifies clients[i]
      ensures Valid() && Table() == old(Table())[i := Missed(old(Table())[i], m, slot)]
    {
      if Eligible(clients[i].seat, slot, AnyClient) {
        clients[i].Note(Message(m.kind, m.flags, []), false);
      }
      OnlyEntry(i);
    }

    method AnnounceStreamShape(slot: nat, w: nat, h: nat, es: seq<Env>)
      requires Valid() && |es| == MAX_CLIENTS && slot < STREAM_COUNT
      modifies this, Entries()
      ensures Valid() && View() == AnnounceStream(old(View()), slot, w, h, es)
    {
      hide Broadcast;
      var info := StreamInfo(w, h, SlotCodecOf(slot));
      groups := groups[slot := groups[slot].(width := w, height := h, known := true)];
      var _ := BroadcastFiltered(Message(MSG_STREAM_INFO, 0, info), Some(slot), AnyClient, es);
    }

    method AnnounceSharedSettings(slot: nat, w: nat, h: nat, fps: nat, kbps: nat, mjpeg: byte, es: seq<Env>)
      requires Valid() && |es| == MAX_CLIENTS && slot < STREAM_COUNT
      modifies this, Entries()
      ensures Valid() && View() == AnnounceShared(old(View()), slot, w, h, fps, kbps, mjpeg, es)
    {
      hide Broadcast;
      var sh := SharedSettings(w, h, fps, kbps, SlotCodecOf(slot), mjpeg);
      groups := groups[slot := groups[slot].(shared := sh, sharedKnown := true)];
      var _ := BroadcastFiltered(Message(MSG_SHARED, 0, sh), Some(slot), AnyClient, es);
    }

    function SlotCodecOf(slot: nat): (codec: byte)
      reads this, Entries()
      ensures Valid() ==> codec == SlotCodec(View(), slot)
    {
      if slot == STREAM_VP8 then CODEC_VP8
      else if slot == STREAM_DRC then CODEC_DRC_H264
      else if slot == STREAM_OLD3DS then old3dsCodec
      else CODEC_H264
    }

    // ---------------------------------------------------------------- arrivals

    /** The codec of the first client on a stream, which is what the pipeline encodes for it. */
    method CodecOfStream(slot: nat) returns (codec: Option<byte>)
      requires Valid()
      ensures codec == StreamCodec(Table(), slot)
    {
      hide StreamCodec;
      ghost var cs := Table();
      TableSeats();
      NoCodecYet(cs, slot);
      codec := None;
      for i := 0 to MAX_CLIENTS
        invariant codec == StreamCodec(cs[..i], slot)
      {
        CodecNext(cs, slot, i);
        if codec.None? && OnStream(clients[i].seat, slot) {
          codec := Some(clients[i].seat.codec);
        }
      }
      assert cs[..MAX_CLIENTS] == cs == Table();
    }

    /** Tells one client the shape and the settings of its stream; failures go unnoticed. */
    method SendGroupState(i: nat)
      requires Valid() && i < MAX_CLIENTS
      modifies clients[i]
      ensures Valid() && View() == Put(old(View()), i, Told(old(View()), old(View()).clients[i]))
    {
      hide TellGroup;
      var slot := Slot(clients[i].seat);
      clients[i].SendGroup(groups[slot], SlotCodecOf(slot));
      OnlyEntry(i);
    }

    /** The first free entry and the number of browsers, in one pass over the table. */
    method Survey() returns (free: nat, browsers: nat)
      requires Valid()
      ensures free == FirstFree(Table()) && browsers == Browsers(Table())
    {
      hide FirstFree, Browsers;
      free, browsers := MAX_CLIENTS, 0;
      ghost var cs := Table();
      TableSeats();
      NoBrowsersYet(cs);
      for i := 0 to MAX_CLIENTS
        invariant free == MAX_CLIENTS ==> forall j :: 0 <= j < i ==> cs[j].seat.used
        invariant free != MAX_CLIENTS ==>
                    free < i && !cs[free].seat.used && forall j :: 0 <= j < free ==> cs[j].seat.used
        invariant browsers == Browsers(cs[..i])
      {
        BrowsersNext(cs, i);
        if clients[i].seat.used && clients[i].seat.isWs {
          browsers := browsers + 1;
        }
        if free == MAX_CLIENTS && !clients[i].seat.used {
          free := i;
        }
      }
      assert cs[..MAX_CLIENTS] == cs == Table();
    }

    lemma TableSeats()
      requires Valid()
      ensures forall i :: 0 <= i < MAX_CLIENTS ==> Table()[i].seat == clients[i].seat
    {
    }

    method FillEntry(i: nat, seat: Seat, now: nat, net: seq<int>)
      requires Valid() && i < MAX_CLIENTS
      modifies clients[i]
      ensures Valid() && View() == Put(old(View()), i, Client(seat, FreshFeed(net), [], [], [], now, 0))
      ensures clients[i].seat == seat
    {
      clients[i].Occupy(seat, now, net);
      OnlyEntry(i);
    }

    /** Answers a browser that has just been given entry i, as its first message. */
    method AnswerBrowser(i: nat, control: bool) returns (ok: bool)
      requires Valid() && i < MAX_CLIENTS && clients[i].seat.isWs
      modifies clients[i]
      ensures Valid()
      ensures var s := old(View());
              var ack := Ack(control, 0, PictureWidth(s, STREAM_WEB), PictureHeight(s, STREAM_WEB),
                             CODEC_H264, CODEC_OPUS, AUDIO_RATE);
              var c := s.clients[i];
              var a := SendNow(true, c.feed.out, Message(MSG_HELLO_ACK, 0, ack));
              ok == a.1
              && View() == Put(s, i, if ok then c.(feed := c.feed.(out := a.0)) else NO_CLIENT)
    {
      hide SendNow, Ack;
      var g := groups[STREAM_WEB];
      var ack := Ack(control, 0, if g.known then g.width else width, if g.known then g.height else height,
                     CODEC_H264, CODEC_OPUS, AUDIO_RATE);
      ok := clients[i].SendMsgNow(Message(MSG_HELLO_ACK, 0, ack));
      if !ok {
        clients[i].Clear();
      }
      OnlyEntry(i);
    }

    method SeatBrowserAt(i: nat, control: bool, now: nat, net: seq<int>) returns (taken: bool)
      requires Valid() && i < MAX_CLIENTS
      modifies `live, `dirty, clients[i]
      ensures Valid() && (View(), taken) == SeatBrowser(old(View()), i, control, now, net)
    {
      hide SendNow, Ack, Told, Counts, Table;
      ghost var cs := Table();
      ghost var s := View();
      FillEntry(i, BrowserSeat(control), now, net);
      ghost var c1 := View().clients[i];
      assert c1 == Client(BrowserSeat(control), FreshFeed(net), [], [], [], now, 0);
      taken := AnswerBrowser(i, control);
      ghost var c2 := View().clients[i];
      assert cs[i := c1][i := c2] == cs[i := c2];
      assert View() == Put(s, i, c2);
      assert taken == SeatBrowser(s, i, control, now, net).1;
      assert !taken ==> View() == SeatBrowser(s, i, control, now, net).0;
      if taken {
        ToldSame(old(View()), View(), c2);
        SendGroupState(i);
        assert cs[i := c2][i := View().clients[i]] == cs[i := View().clients[i]];
        assert View() == Put(s, i, Told(s, c2));
        RecountAudience();
      }
    }

    /** Takes over a connection the HTTP server has already upgraded. */
    method AdoptWebsocket(control: bool, now: nat, net: seq<int>) returns (taken: bool)
      requires Valid()
      modifies this, Entries()
      ensures Valid() && (View(), taken) == Adopt(old(View()), control, now, net)
    {
      hide SeatBrowser, Table, FirstFree, Browsers;
      var i, browsers := Survey();
      if i == MAX_CLIENTS || browsers >= MAX_BROWSERS {
        taken := false;
      } else {
        taken := SeatBrowserAt(i, control, now, net);
      }
    }

    /** One console cannot hold two connections: an older one from its address goes. */
    method EvictConsole(peer: nat)
      requires Valid()
      modifies this, Entries()
      ensures Valid() && View() == EvictTo(old(View()), MAX_CLIENTS, peer)
    {
      hide Drop;
      ghost var s := View();
      for i := 0 to MAX_CLIENTS
        invariant Valid() && View() == EvictTo(s, i, peer)
      {
        assert View().clients[i].seat == clients[i].seat;
        if SameConsole(clients[i].seat, peer) {
          DropClient(i);
        }
      }
    }

    /** Seats a native client that came in through one of the four doors, if there is room. */
    method AcceptClient(door: Door, peer: nat, now: nat, net: seq<int>)
      requires Valid()
      modifies this, Entries()
      ensures Valid() && View() == Accept(old(View()), door, peer, now, net)
    {
      hide EvictTo, FirstFree, Browsers, Table, NewcomerSeat;
      if door.WiiuDoor? && peer != 0 {
        EvictConsole(peer);
      }
      var i, _ := Survey();
      if i < MAX_CLIENTS {
        FillEntry(i, NewcomerSeat(old3dsCodec, door, peer), now, net);
      }
    }

    /** A client that sent nothing in this pass. */
    method Idle(i: nat, now: nat)
      requires Valid() && i < MAX_CLIENTS
      modifies `live, `dirty, clients[i]
      ensures Valid() && View() == Quiet(old(View()), i, now)
    {
      hide Probed, Counts;
      var c := clients[i];
      if Since(now, c.lastSeen) > IDLE_TIMEOUT_MS {
        DropClient(i);
      } else if Since(now, c.lastSeen) > IDLE_PROBE_MS && Since(now, c.lastProbe) > IDLE_PROBE_MS {
        c.Probe(now);
        OnlyEntry(i);
      }
    }

    // ---------------------------------------------------------------- receiving

    /** Moves one Old 3DS client to a new codec and tells it. */
    method SwitchEntry(j: nat, codec: byte)
      requires Valid() && j < MAX_CLIENTS
      modifies clients[j]
      ensures Valid()
      ensures View() == Put(old(View()), j, SwitchPeer(old(View()), old(View()).clients[j], codec))
    {
      hide GroupState;
      var c := clients[j];
      if c.seat.used && c.seat.done && c.seat.onOld3ds {
        RetuneAndTell(j, codec, PredictiveCodec(codec));
      } else {
        OnlyEntry(j);
      }
    }

    method RetuneAndTell(j: nat, codec: byte, waiting: bool)
      requires Valid() && j < MAX_CLIENTS
      modifies clients[j]
      ensures Valid()
      ensures View() == Put(old(View()), j, Told(old(View()), Retuned(old(View()).clients[j], codec, waiting)))
    {
      hide Told;
      ghost var s := View();
      clients[j].Retune(codec, waiting);
      OnlyEntry(j);
      ghost var c := Retuned(s.clients[j], codec, waiting);
      assert View() == Put(s, j, c);
      ToldSame(s, View(), c);
      SendGroupState(j);
      assert s.clients[j := c][j := Told(s, c)] == s.clients[j := Told(s, c)];
    }

    method RecordCodec(codec: byte)
      requires Valid()
      modifies `old3dsCodec, `groups
      ensures Valid() && View() == AnnouncedCodec(old(View()), codec)
    {
      old3dsCodec := codec;
      var g := groups[STREAM_OLD3DS];
      if g.sharedKnown {
        groups := groups[STREAM_OLD3DS := g.(shared := g.shared[8 := codec])];
      }
    }

    method SwitchEntries(codec: byte)
      requires Valid()
      modifies Entries()
      ensures Valid() && View() == SwitchTo(old(View()), MAX_CLIENTS, codec)
    {
      hide SwitchPeer;
      ghost var s := View();
      for j := 0 to MAX_CLIENTS
        invariant Valid() && View() == SwitchTo(s, j, codec)
      {
        SwitchPeerSame(s, View(), s.clients[j], codec);
        SwitchEntry(j, codec);
      }
    }

    /** Moves every Old 3DS client, and the stream, to a new codec. */
    method SwitchOld3ds(codec: byte)
      requires Valid()
      modifies this, Entries()
      ensures Valid() && View() == SwitchTo(AnnouncedCodec(old(View()), codec), MAX_CLIENTS, codec)
    {
      hide SwitchTo, AnnouncedCodec;
      RecordCodec(codec);
      SwitchEntries(codec);
    }

    /** Acts on one message; says whether a codec moved, so that the audience must be recounted. */
    method DispatchMessage(i: nat, m: Message) returns (changed: bool)
      requires Valid() && i < MAX_CLIENTS
      modifies this, Entries()
      ensures Valid() && (View(), changed) == Dispatch(old(View()), i, m)
    {
      hide SwitchTo, AnnouncedCodec, Told;
      var c := clients[i];
      assert View().clients[i].seat == c.seat;
      changed := false;
      if m.kind == MSG_CODEC {
        if c.seat.onOld3ds {
          if |m.payload| == 1 && Old3dsCodec(m.payload[0]) && old3dsCodec != m.payload[0] {
            SwitchOld3ds(m.payload[0]);
            changed := true;
          }
        } else if |m.payload| == 1 && m.payload[0] == CODEC_DRC_H264 && !drcAvailable {
          // refused: this host cannot make that encode
        } else if |m.payload| == 1 && c.seat.codec != m.payload[0]
                  && (m.payload[0] == CODEC_VP8 || m.payload[0] == CODEC_H264 || m.payload[0] == CODEC_DRC_H264) {
          RetuneAndTell(i, m.payload[0], c.waitingKeyframe);
          changed := true;
        }
      }
    }

    method TakeFrom(i: nat, m: Message)
      requires Valid() && i < MAX_CLIENTS && HEADER_SIZE + |m.payload| <= |View().clients[i].rx|
      modifies clients[i], clients[i].rx
      ensures Valid()
      ensures View() == Put(old(View()), i, AfterPiece(old(View()).clients[i], Piece(m, HEADER_SIZE + |m.payload|)))
    {
      clients[i].TakeMessage(m);
      OnlyEntry(i);
    }

    /** One message acted on and taken out of the buffer. */
    method HandleOne(i: nat, m: Message)
      requires Valid() && i < MAX_CLIENTS && HEADER_SIZE + |m.payload| <= |View().clients[i].rx|
      modifies this, Entries()
      ensures Valid()
      ensures View() == HandlePiece(old(View()), i, Piece(m, HEADER_SIZE + |m.payload|))
    {
      hide Dispatch, Counts, Table;
      var changed := DispatchMessage(i, m);
      TakeFrom(i, m);
      if changed {
        RecountAudience();
      }
    }

    /** The message at the front of a client's buffer, if it is whole and not too big. */
    method FrontPiece(i: nat, capacity: nat) returns (p: Piece)
      requires Valid() && i < MAX_CLIENTS && HEADER_SIZE <= capacity
      ensures p == NextPiece(View().clients[i].rx, capacity)
    {
      SeatAndInput(i);
      var buf := clients[i].Input();
      if |buf| < HEADER_SIZE {
        return NeedMore;
      }
      var size := FromLe32(buf[4..8]);
      if size > capacity - HEADER_SIZE {
        return TooBig;
      }
      if |buf| < HEADER_SIZE + size {
        return NeedMore;
      }
      p := Piece(Message(buf[0], buf[1], buf[HEADER_SIZE..HEADER_SIZE + size]), HEADER_SIZE + size);
    }

    /** Acts on every complete message at the front of a client's buffer, in order. */
    method HandleMessagesOf(i: nat, capacity: nat)
      requires Valid() && i < MAX_CLIENTS && HEADER_SIZE <= capacity
      modifies this, Entries()
      ensures Valid() && View() == HandleMessages(old(View()), i, capacity)
    {
      hide HandlePiece, Drop, NextPiece, Table;
      ghost var s := View();
      while true
        invariant Valid() && HandleMessages(View(), i, capacity) == HandleMessages(s, i, capacity)
        decreases |View().clients[i].rx|
      {
        var p := FrontPiece(i, capacity);
        match p {
          case NeedMore => return;
          case TooBig =>
            DropClient(i);
            return;
          case Piece(m, _) => HandleOne(i, m);
        }
      }
    }

    function AckOf(seat: Seat): (ack: seq<byte>)
      reads this, Entries()
      ensures Valid() ==> ack == AckFor(View(), seat)
    {
      var g := if Slot(seat) < |groups| then groups[Slot(seat)] else Group(0, 0, false, [], false);
      Ack(seat.control,
          (if seat.pcmUdp then 1 else 0) + (if seat.opusUdp then 2 else 0) + (if seat.adpcmUdp then 4 else 0),
          if g.known then g.width else width, if g.known then g.height else height, seat.codec,
          AudioCodec(seat), if seat.adpcmUdp then ADPCM_RATE else AUDIO_RATE)
    }

    method WelcomeClient(i: nat, n: nat, seat: Seat) returns (ok: bool)
      requires Valid() && i < MAX_CLIENTS && n <= |View().clients[i].rx| && seat.isWs == clients[i].seat.isWs
      modifies clients[i], clients[i].rx
      ensures Valid()
      ensures var s := old(View());
              var parked := seat.onOld3ds && PredictiveCodec(s.old3dsCodec);
              var w := Welcomed(s.clients[i], n, seat, AckFor(s, seat), parked);
              ok == w.1
              && View() == Put(s, i, View().clients[i])
              && (ok ==> View().clients[i] == w.0)
    {
      hide Welcomed, Ack, AckFor;
      ok := clients[i].Welcome(n, seat, AckOf(seat), seat.onOld3ds && PredictiveCodec(old3dsCodec));
      OnlyEntry(i);
    }

    /** An accepted greeting: answered, then told about its stream; or dropped if it cannot be. */
    method AcceptHello(i: nat, n: nat, seat: Seat)
      requires Valid() && i < MAX_CLIENTS && n <= |View().clients[i].rx|
      requires seat.isWs == View().clients[i].seat.isWs && View().clients[i].seat.used && seat.used
      modifies this, Entries()
      ensures Valid()
      ensures var s := old(View());
              var parked := seat.onOld3ds && PredictiveCodec(s.old3dsCodec);
              var w := Welcomed(s.clients[i], n, seat, AckFor(s, seat), parked);
              View() == if !w.1 then Drop(s, i) else Recount(Put(s, i, Told(s, w.0)))
    {
      hide Welcomed, AckFor, Told, Recount, Put, Table;
      ghost var s := View();
      SeatAndInput(i);
      var ok := WelcomeClient(i, n, seat);
      ghost var s1 := View();
      if !ok {
        DropAnyway(i);
        PutTwice(s, i, s1.clients[i], NO_CLIENT);
      } else {
        ToldSame(s, s1, s1.clients[i]);
        SendGroupState(i);
        PutTwice(s, i, s1.clients[i], Told(s, s1.clients[i]));
        RecountAudience();
      }
    }

    /** Drops a client that is known to be connected. */
    method DropAnyway(i: nat)
      requires Valid() && i < MAX_CLIENTS
      modifies `live, `dirty, clients[i]
      ensures Valid() && View() == Recount(Put(old(View()), i, NO_CLIENT))
    {
      clients[i].Clear();
      OnlyEntry(i);
      RecountAudience();
    }

    /** The greeting of a native client, once all of it has arrived. */
    method HandleHelloOf(i: nat, answer: bool)
      requires Valid() && i < MAX_CLIENTS && clients[i].seat.used
      modifies this, Entries()
      ensures Valid() && View() == HandleHello(old(View()), i, answer)
    {
      hide Welcomed, AckFor, Told, Counts, Table, ParseHello;
      SeatAndInput(i);
      var c := clients[i];
      var h := ParseHello(c.seat.onOld3ds, c.Input());
      match h {
        case HelloIncomplete =>
        case HelloRefused(_) => DropClient(i);
        case HelloAccepted(n, caps) => AcceptHello(i, n, Introduced(udp, c.seat, caps, answer));
      }
    }

    lemma SeatAndInput(i: nat)
      requires Valid() && i < MAX_CLIENTS
      ensures View().clients[i].seat == clients[i].seat && View().clients[i].rx == clients[i].Input()
    {
    }

    method HearFrom(i: nat, data: seq<byte>, now: nat)
      requires Valid() && i < MAX_CLIENTS && !clients[i].seat.isWs
      requires |data| <= RX_CAPACITY - |clients[i].Input()|
      modifies clients[i], clients[i].rx
      ensures Valid()
      ensures var c := old(View()).clients[i];
              View() == Put(old(View()), i, Hearing(c, data, now))
    {
      clients[i].Hear(data, now);
      OnlyEntry(i);
    }

    /** Bytes from a native client: stored, then the greeting or the messages they complete. */
    method ReceiveFrom(i: nat, data: seq<byte>, now: nat, answer: bool)
      requires Valid() && i < MAX_CLIENTS && clients[i].seat.used && !clients[i].seat.isWs
      requires |data| <= RX_CAPACITY - |clients[i].Input()|
      modifies this, Entries()
      ensures Valid() && View() == Receive(old(View()), i, data, now, answer)
    {
      hide HandleHello, HandleMessages, Table;
      SeatAndInput(i);
      HearFrom(i, data, now);
      SeatAndInput(i);
      if !clients[i].seat.done {
        HandleHelloOf(i, answer);
      }
      SeatAndInput(i);
      if clients[i].seat.used && clients[i].seat.done {
        HandleMessagesOf(i, RX_CAPACITY);
      }
    }

    /** A ping found among a browser's frames: answered past its queue. */
    method HearPingFrom(i: nat, payload: seq<byte>, now: nat)
      requires Valid() && i < MAX_CLIENTS && clients[i].seat.isWs
      modifies clients[i]
      ensures Valid() && View() == Ponged(old(View()), i, payload, now)
    {
      hide Answered;
      clients[i].HearPing(payload, now);
      OnlyEntry(i);
    }

    method HearUnwrappedFrom(i: nat, data: seq<byte>, now: nat)
      requires Valid() && i < MAX_CLIENTS && clients[i].seat.isWs
      modifies clients[i]
      ensures Valid()
      ensures View() == Put(old(View()), i, Hearing(old(View()).clients[i], data, now))
    {
      clients[i].HearUnwrapped(data, now);
      OnlyEntry(i);
    }

    /** What a browser sent, once out of its frames: stored, then the messages it completes. */
    method ReceiveUnwrapped(i: nat, data: seq<byte>, capacity: nat, now: nat)
      requires Valid() && i < MAX_CLIENTS && clients[i].seat.isWs && HEADER_SIZE <= capacity
      modifies this, Entries()
      ensures Valid() && View() == BrowserData(old(View()), i, data, capacity, now)
    {
      hide HandleMessages, Table;
      HearUnwrappedFrom(i, data, now);
      HandleMessagesOf(i, capacity);
    }

    /** A transport as it starts. */
    constructor (udpAvailable: bool)
      ensures Valid() && fresh(Entries())
      ensures View() == Initial(udpAvailable)
    {
      var g := Group(0, 0, false, seq(12, _ => 0), false);
      largest, live := seq(STREAM_COUNT, _ => 0), seq(STREAM_COUNT, _ => 0);
      maxFrame, old3dsCodec, dirty, drcAvailable := 0, CODEC_OLD3DS_MPEG1, false, false;
      udp, width, height := udpAvailable, 1280, 720;
      groups := seq(STREAM_COUNT, _ => g);
      var cs := SwitchStream.FreeEntries();
      clients := cs;
      new;
      assert Table() == seq(MAX_CLIENTS, _ => NO_CLIENT);
    }

    /** Eight entries, zeroed, no two sharing anything. */
    static method FreeEntries() returns (cs: seq<SsClient>)
      ensures |cs| == MAX_CLIENTS
      ensures forall j :: 0 <= j < |cs| ==> fresh(cs[j]) && fresh(cs[j].rx)
      ensures forall j :: 0 <= j < |cs| ==> cs[j].Free()
      ensures forall j, k :: 0 <= j < k < |cs| ==> cs[j] != cs[k] && cs[j].rx != cs[k].rx
    {
      hide SsClient.Free;
      cs := [];
      for i := 0 to MAX_CLIENTS
        invariant |cs| == i
        invariant forall j :: 0 <= j < i ==> fresh(cs[j]) && fresh(cs[j].rx)
        invariant forall j :: 0 <= j < i ==> cs[j].Free()
        invariant forall j, k :: 0 <= j < k < i ==> cs[j] != cs[k] && cs[j].rx != cs[k].rx
      {
        var c := new SsClient();
        cs := cs + [c];
      }
    }
  }
}
