/**
 A whole broadcast, seen from one entry of the table: the loop treats every client as if it were
 the only one. What that means for audio.
 */
module Broadcasting {
  import opened Bytes
  import opened Wire
  import opened ClientModel
  import opened StreamModel
  import opened Framing

  /** What one send leaves at an entry, given the frame size it allows for. */
  function Given(c: Client, m: Message, slot: Option<nat>, filter: AudioFilter, recent: nat, e: Env): Client {
    var d := Deliver(c.seat, c.feed, m, slot, filter, recent, e);
    if d.1.Dropped? then NO_CLIENT else c.(feed := d.0)
  }

  lemma DeliverAtEntry(s: Stream, i: nat, m: Message, slot: Option<nat>, filter: AudioFilter, e: Env)
    requires i < |s.clients|
    ensures DeliverAt(s, i, m, slot, filter, e).clients
            == s.clients[i := Given(s.clients[i], m, slot, filter, s.maxFrame, e)]
  {
    hide Deliver, Counts;
    var c := s.clients[i];
    var d := Deliver(c.seat, c.feed, m, slot, filter, s.maxFrame, e);
    if d.1.Dropped? {
      DroppedWasUsed(c.seat, c.feed, m, slot, filter, s.maxFrame, e);
    }
  }

  /** The loop, entry by entry: nobody's fate depends on anybody else's. */
  lemma {:induction false} DeliverToEach(s: Stream, n: nat, m: Message, slot: Option<nat>,
                                         filter: AudioFilter, es: seq<Env>)
    requires n <= |s.clients| == |es|
    ensures forall j :: 0 <= j < |s.clients| ==>
              DeliverTo(s, n, m, slot, filter, es).clients[j]
              == if j < n then Given(s.clients[j], m, slot, filter, s.maxFrame, es[j]) else s.clients[j]
  {
    hide Given, DeliverAt;
    if n > 0 {
      DeliverToEach(s, n - 1, m, slot, filter, es);
      DeliverAtEntry(DeliverTo(s, n - 1, m, slot, filter, es), n - 1, m, slot, filter, es[n - 1]);
    }
  }

  lemma BroadcastEach(s: Stream, m: Message, slot: Option<nat>, filter: AudioFilter, es: seq<Env>, i: nat)
    requires Shape(s) && |es| == MAX_CLIENTS && i < MAX_CLIENTS && (slot.Some? ==> slot.value < STREAM_COUNT)
    ensures Broadcast(s, m, slot, filter, es).clients[i]
            == if Sendable(m) then Given(s.clients[i], m, slot, filter, Sized(s, m, slot).maxFrame, es[i])
               else Missed(s.clients[i], m, slot)
  {
    hide Given, DeliverTo, Missed;
    DeliverToEach(Sized(s, m, slot), MAX_CLIENTS, m, slot, filter, es);
  }

  // ------------------------------------------------------------------ who is passed over

  /** Why a client that is there is not given a frame: it is parked, or its socket or queue is behind. */
  predicate HeldBack(c: Seat, f: Feed, m: Message, slot: Option<nat>, filter: AudioFilter, recent: nat, e: Env) {
    && Eligible(c, slot, filter) && !Flush(f.out).1
    && ((Predicted(c, m) && f.waiting && !IsKey(m))
        || Backlogged(c, m, recent, e)
        || (Flush(f.out).0.tail != [] && m.kind != MSG_AUDIO))
  }

  lemma SkippedIsHeldBack(c: Seat, f: Feed, m: Message, slot: Option<nat>, filter: AudioFilter, recent: nat, e: Env)
    ensures Deliver(c, f, m, slot, filter, recent, e).1.Skipped? <==> HeldBack(c, f, m, slot, filter, recent, e)
  {
    hide Flush, Wrap, Allowance;
  }

  /** Somebody is passed over by this broadcast. */
  predicate AnyHeldBack(s: Stream, m: Message, slot: Option<nat>, filter: AudioFilter, es: seq<Env>)
    requires Shape(s) && |es| == MAX_CLIENTS && (slot.Some? ==> slot.value < STREAM_COUNT)
  {
    Sendable(m) && HeldBackBefore(Sized(s, m, slot), MAX_CLIENTS, m, slot, filter, es)
  }

  /** One of the first n clients is. */
  predicate HeldBackBefore(s: Stream, n: nat, m: Message, slot: Option<nat>, filter: AudioFilter, es: seq<Env>)
    requires n <= |s.clients| == |es|
  {
    exists i :: 0 <= i < n && HeldBackAt(s, i, m, slot, filter, es[i])
  }

  predicate HeldBackAt(s: Stream, i: nat, m: Message, slot: Option<nat>, filter: AudioFilter, e: Env)
    requires i < |s.clients|
  {
    HeldBack(s.clients[i].seat, s.clients[i].feed, m, slot, filter, s.maxFrame, e)
  }

  lemma NobodyBefore(s: Stream, m: Message, slot: Option<nat>, filter: AudioFilter, es: seq<Env>)
    requires |s.clients| == |es|
    ensures !HeldBackBefore(s, 0, m, slot, filter, es)
  {
  }

  /** The loop's turn for one client asks the question of that client as it was before the loop. */
  lemma HeldBackNext(s: Stream, n: nat, m: Message, slot: Option<nat>, filter: AudioFilter, es: seq<Env>)
    requires n < |s.clients| == |es|
    ensures HeldBackBefore(s, n + 1, m, slot, filter, es)
            <==> HeldBackBefore(s, n, m, slot, filter, es)
                 || HeldBackAt(DeliverTo(s, n, m, slot, filter, es), n, m, slot, filter, es[n])
  {
    hide HeldBack, Given;
    DeliverToEach(s, n, m, slot, filter, es);
  }

  // ------------------------------------------------------------------ audio

  /**
   After an audio packet has been sent, every client it was meant for has it, whole and behind what
   it was owed, or is gone -- or its buffer had to grow and could not, or the packet was over the
   payload limit. Nobody else notices.
   */
  lemma AudioReachesAll(s: Stream, m: Message, slot: Option<nat>, filter: AudioFilter, es: seq<Env>, i: nat)
    requires Shape(s) && |es| == MAX_CLIENTS && i < MAX_CLIENTS && (slot.Some? ==> slot.value < STREAM_COUNT)
    requires m.kind == MSG_AUDIO
    ensures var c, r := s.clients[i], Broadcast(s, m, slot, filter, es).clients[i];
            if !Sendable(m) || !Eligible(c.seat, slot, filter) then r == c
            else if NoRoomForAudio(c.seat, c.feed, m, es[i]) then
              r.seat == c.seat && r.feed.out.sent == c.feed.out.sent
              && Framing.Stream(r.feed.out) == Framing.Stream(c.feed.out)
            else
              r == NO_CLIENT
              || (!BehindForAudio(c.seat, c.feed, m)
                  && r.seat == c.seat && r.feed.out.sent == c.feed.out.sent + [Data(m)]
                  && Framing.Stream(r.feed.out) == Framing.Stream(c.feed.out) + Wrap(c.seat.isWs, m))
  {
    hide Deliver, Wrap, Flush, Broadcast;
    var c := s.clients[i];
    BroadcastEach(s, m, slot, filter, es, i);
    if Eligible(c.seat, slot, filter) {
      AudioNeverSkipped(c.seat, c.feed, m, slot, filter, Sized(s, m, slot).maxFrame, es[i]);
    } else {
      IneligibleKept(c, m, slot, filter, Sized(s, m, slot).maxFrame, es[i]);
    }
  }

  lemma IneligibleKept(c: Client, m: Message, slot: Option<nat>, filter: AudioFilter, recent: nat, e: Env)
    requires !Eligible(c.seat, slot, filter)
    ensures Given(c, m, slot, filter, recent, e) == c
  {
  }
}
