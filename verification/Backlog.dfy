/**
 How far behind is too far, in bytes and frames: a stream whose last six hundred frames were small
 holds its clients to what small frames need, whatever it carried before.
 */
module Backlog {
  import opened Bytes
  import opened Wire
  import opened ClientModel
  import opened StreamModel
  import opened Broadcasting
  import opened Transport
  import opened Invariant

  const SETTLING: nat := 600

  function Most(a: int, b: int): int {
    if a > b then a else b
  }

  function Least(a: int, b: int): int {
    if a < b then a else b
  }

  /** What a client may have unsent in its socket on a stream of frames of z bytes. */
  function Tolerated(c: Seat, z: nat): int {
    if !c.onOld3ds then Most(65536, Least(2 * z + 32768, 524288))
    else if c.codec == 7 || c.codec == 9 || c.codec == 10 then Most(49152, Least(2 * z + 8192, 131072))
    else Most(24576, Least(z + 8192, 65536))
  }

  // ------------------------------------------------------------------ the maximum comes down again

  /** The decaying maximum after some more frames. */
  function Recent(l: nat, sizes: seq<nat>): nat
    decreases |sizes|
  {
    if sizes == [] then l else Recent(Decayed(l, sizes[0]), sizes[1..])
  }

  /** The decay alone. */
  function Fading(l: nat, n: nat): nat {
    if n == 0 then l else Fading(l - l / 16, n - 1)
  }

  lemma DecayGrows(l: nat, m: nat)
    requires l <= m
    ensures l - l / 16 <= m - m / 16
  {
  }

  lemma {:induction false} FadingGrows(l: nat, m: nat, n: nat)
    requires l <= m
    ensures Fading(l, n) <= Fading(m, n) <= m
    decreases n
  {
    if n > 0 {
      DecayGrows(l, m);
      FadingGrows(l - l / 16, m - m / 16, n - 1);
    }
  }

  lemma {:induction false} FadingAdds(l: nat, a: nat, b: nat)
    ensures Fading(l, a + b) == Fading(Fading(l, a), b)
    decreases a
  {
    if a > 0 {
      FadingAdds(l - l / 16, a - 1, b);
    }
  }

  /** While it is above h, each frame takes off at least a sixteenth of h. */
  lemma {:induction false} FadesBelow(l: nat, h: nat, n: nat)
    ensures Fading(l, n) <= h || Fading(l, n) + n * (h / 16) <= l
    decreases n
  {
    if n > 0 {
      var m := l - l / 16;
      FadesBelow(m, h, n - 1);
      if l <= h {
        FadingGrows(m, m, n - 1);
      } else {
        assert l / 16 >= h / 16;
        assert n * (h / 16) == (n - 1) * (h / 16) + h / 16;
        FadingGrows(m, m, n - 1);
      }
    }
  }

  /** Thirty-two frames halve it. */
  lemma HalvesIn32(l: nat)
    requires l >= 32
    ensures Fading(l, 32) <= l - l / 2
  {
    hide Fading;
    var h := l / 2;
    FadesBelow(l, h, 32);
    assert 32 * (h / 16) >= h;
  }

  lemma SmallIn32(l: nat)
    requires l <= 32
    ensures Fading(l, 32) <= 16
  {
    hide Fading;
    if l == 32 {
      HalvesIn32(l);
    } else {
      FadesBelow(l, 16, 32);
    }
  }

  function Doubled(k: nat): (p: nat)
    ensures p >= 16
  {
    if k == 0 then 16 else 2 * Doubled(k - 1)
  }

  lemma {:induction false} FadesIn(l: nat, k: nat)
    requires l <= Doubled(k)
    ensures Fading(l, 32 * k) <= 16
    decreases k
  {
    if k > 0 {
      FadingAdds(l, 32, 32 * (k - 1));
      if l >= 32 {
        HalvesIn32(l);
      } else {
        SmallIn32(l);
      }
      FadesIn(Fading(l, 32), k - 1);
    }
  }

  /** Whatever it was, six hundred frames wear it out. */
  lemma WornOut(l: nat, n: nat)
    requires l <= MAX_PAYLOAD && n >= SETTLING
    ensures Fading(l, n) <= 15
  {
    assert Doubled(6) == 1024;
    assert Doubled(12) == 64 * Doubled(6);
    assert Doubled(18) == 64 * Doubled(12);
    FadesIn(l, 18);
    FadingAdds(l, 576, 1);
    FadingAdds(l, 577, n - 577);
    var m := Fading(l, 577);
    assert Fading(Fading(l, 576), 1) == Fading(l, 576) - Fading(l, 576) / 16;
    FadingGrows(m, m, n - 577);
  }

  lemma {:induction false} RecentBelow(l: nat, sizes: seq<nat>, z: nat)
    requires forall i :: 0 <= i < |sizes| ==> sizes[i] <= z
    ensures Recent(l, sizes) <= Most(z, Fading(l, |sizes|))
    decreases |sizes|
  {
    if sizes != [] {
      var m := Decayed(l, sizes[0]);
      RecentBelow(m, sizes[1..], z);
      FadingGrows(m, m, |sizes| - 1);
    }
  }

  lemma {:induction false} RecentJoins(l: nat, a: seq<nat>, b: seq<nat>)
    ensures Recent(l, a + b) == Recent(Recent(l, a), b)
    decreases |a|
  {
    if a == [] {
      assert a + b == b;
    } else {
      assert (a + b)[1..] == a[1..] + b;
      RecentJoins(Decayed(l, a[0]), a[1..], b);
    }
  }

  lemma {:induction false} RecentBounded(l: nat, sizes: seq<nat>, z: nat)
    requires l <= z && forall i :: 0 <= i < |sizes| ==> sizes[i] <= z
    ensures Recent(l, sizes) <= z
    decreases |sizes|
  {
    if sizes != [] {
      RecentBounded(Decayed(l, sizes[0]), sizes[1..], z);
    }
  }

  /** The last six hundred frames were no larger than this. */
  predicate Lately(sizes: seq<nat>, z: nat) {
    |sizes| >= SETTLING && forall i :: |sizes| - SETTLING <= i < |sizes| ==> sizes[i] <= z
  }

  lemma RecentLately(sizes: seq<nat>, z: nat)
    requires Lately(sizes, z) && forall i :: 0 <= i < |sizes| ==> sizes[i] <= MAX_PAYLOAD
    ensures Recent(0, sizes) <= Most(z, 15)
  {
    var a, b := sizes[..|sizes| - SETTLING], sizes[|sizes| - SETTLING..];
    assert sizes == a + b;
    RecentJoins(0, a, b);
    RecentBounded(0, a, MAX_PAYLOAD);
    RecentBelow(Recent(0, a), b, z);
    WornOut(Recent(0, a), SETTLING);
  }

  // ------------------------------------------------------------------ over runs

  predicate ShowsOn(e: Event, slot: nat) {
    e.Media? && e.m.kind == MSG_VIDEO && e.slot == Some(slot) && Sendable(e.m)
  }

  /** The sizes of the frames that were broadcast on a stream. */
  function Sizes(es: seq<Event>, slot: nat): (sizes: seq<nat>)
    ensures forall i :: 0 <= i < |sizes| ==> sizes[i] <= MAX_PAYLOAD
  {
    if es == [] then []
    else (if ShowsOn(es[0], slot) then [|es[0].m.payload|] else []) + Sizes(es[1..], slot)
  }

  lemma {:induction false} MessagesKeepSizes(s: Stream, i: nat, capacity: nat)
    requires Shape(s) && i < MAX_CLIENTS && HEADER_SIZE <= capacity
    ensures HandleMessages(s, i, capacity).largest == s.largest
    decreases |s.clients[i].rx|
  {
    hide NextPiece, Counts, Told;
    var p := NextPiece(s.clients[i].rx, capacity);
    if p.Piece? {
      MessagesKeepSizes(HandlePiece(s, i, p), i, capacity);
    }
  }

  lemma HelloKeepsSizes(s: Stream, i: nat, answer: bool)
    requires Shape(s) && i < MAX_CLIENTS
    ensures HandleHello(s, i, answer).largest == s.largest
  {
    hide ParseHello, Introduced, Welcomed, AckFor, Told, Counts;
  }

  lemma ReceiveKeepsSizes(s: Stream, i: nat, data: seq<byte>, now: nat, answer: bool)
    requires Shape(s) && i < MAX_CLIENTS
    ensures Receive(s, i, data, now, answer).largest == s.largest
  {
    hide HandleHello, HandleMessages;
    var s1 := Put(s, i, Hearing(s.clients[i], data, now));
    HelloKeepsSizes(s1, i, answer);
    var s2 := if s.clients[i].seat.done then s1 else HandleHello(s1, i, answer);
    MessagesKeepSizes(s2, i, RX_CAPACITY);
  }

  lemma BroadcastSizes(s: Stream, m: Message, slot: Option<nat>, filter: AudioFilter, es: seq<Env>, k: nat)
    requires Shape(s) && |es| == MAX_CLIENTS && (slot.Some? ==> slot.value < STREAM_COUNT) && k < STREAM_COUNT
    ensures Broadcast(s, m, slot, filter, es).largest[k]
            == if m.kind == MSG_VIDEO && slot == Some(k) && Sendable(m) then Decayed(s.largest[k], |m.payload|)
               else s.largest[k]
  {
    hide DeliverTo, Decayed;
  }

  lemma StepSizes(s: Stream, e: Event, k: nat)
    requires Shape(s) && Enabled(s, e) && k < STREAM_COUNT
    ensures Step(s, e).largest[k]
            == if ShowsOn(e, k) then Decayed(s.largest[k], |e.m.payload|) else s.largest[k]
  {
    hide Broadcast, Decayed, Counts, Browsers, EvictTo, HandleMessages, Receive, Told, SendNow, Ack, StreamInfo,
         SharedSettings, Probed, FirstFree, Answered;
    match e {
      case Media(m, slot, filter, envs) => BroadcastSizes(s, m, slot, filter, envs, k);
      case StreamShape(slot, w, h, envs) =>
        var s1 := s.(groups := s.groups[slot := s.groups[slot].(width := w, height := h, known := true)]);
        var m := Message(MSG_STREAM_INFO, 0, StreamInfo(w, h, SlotCodec(s, slot)));
        BroadcastSizes(s1, m, Some(slot), AnyClient, envs, k);
      case Settings(slot, w, h, fps, kbps, mjpeg, envs) =>
        var sh := SharedSettings(w, h, fps, kbps, SlotCodec(s, slot), mjpeg);
        var s1 := s.(groups := s.groups[slot := s.groups[slot].(shared := sh, sharedKnown := true)]);
        BroadcastSizes(s1, Message(MSG_SHARED, 0, sh), Some(slot), AnyClient, envs, k);
      case NativeBytes(i, data, now, answer) => ReceiveKeepsSizes(s, i, data, now, answer);
      case BrowserBytes(i, data, capacity, now) =>
        MessagesKeepSizes(Put(s, i, Hearing(s.clients[i], data, now)), i, capacity);
      case _ =>
    }
  }

  lemma {:induction false} RunSizes(s: Stream, es: seq<Event>, r: Stream, k: nat)
    requires Shape(s) && Run(s, es, r) && k < STREAM_COUNT
    ensures Shape(r) && r.largest[k] == Recent(s.largest[k], Sizes(es, k))
    decreases |es|
  {
    hide Step, Enabled, Decayed;
    if es != [] {
      StepSizes(s, es[0], k);
      RunSizes(Step(s, es[0]), es[1..], r, k);
      var rest := Sizes(es[1..], k);
      if ShowsOn(es[0], k) {
        assert ([|es[0].m.payload|] + rest)[1..] == rest;
      } else {
        assert [] + rest == rest;
      }
    }
  }

  /** A client that is handed nothing by a broadcast: it is gone, or its messages are what they were. */
  predicate HandedNothing(c: Client, r: Client) {
    r == NO_CLIENT || r.feed.out.sent == c.feed.out.sent
  }

  lemma AllowedLately(udp: bool, es: seq<Event>, s: Stream, m: Message, slot: nat, z: nat)
    requires Run(Initial(udp), es, s) && Shape(s) && slot < STREAM_COUNT && Sendable(m) && m.kind == MSG_VIDEO
    requires Lately(Sizes(es, slot), z) && 15 <= z && |m.payload| <= z
    ensures Sized(s, m, Some(slot)).maxFrame <= z
    ensures |m.payload| == z ==> Sized(s, m, Some(slot)).maxFrame == z
  {
    RunSizes(Initial(udp), es, s, slot);
    RecentLately(Sizes(es, slot), z);
  }

  lemma BehindNumbers(c: Seat, m: Message, largest: nat, z: nat, u: int, grows: bool)
    requires largest <= z && m.kind == MSG_VIDEO
    ensures u > Tolerated(c, z) ==> Backlogged(c, m, largest, Env(Some(u), grows))
    ensures largest == z ==> (Backlogged(c, m, largest, Env(Some(u), grows)) <==> u > Tolerated(c, z))
  {
  }

  /**
   After any run in which the last six hundred frames of a stream were at most z bytes: a client that is
   behind by more than such frames need is handed no more of them, whoever it is.
   */
  lemma BehindIsWithheld(udp: bool, es: seq<Event>, s: Stream, m: Message, slot: nat, envs: seq<Env>, z: nat,
                         i: nat, u: int)
    requires Run(Initial(udp), es, s) && Shape(s) && |envs| == MAX_CLIENTS && i < MAX_CLIENTS && slot < STREAM_COUNT
    requires m.kind == MSG_VIDEO && Sendable(m)
    requires Lately(Sizes(es, slot), z) && 15 <= z && |m.payload| <= z
    requires envs[i].unsent == Some(u) && u > Tolerated(s.clients[i].seat, z)
    ensures HandedNothing(s.clients[i], Broadcast(s, m, Some(slot), AnyClient, envs).clients[i])
  {
    hide Flush, Wrap, Broadcast, Backlogged, Tolerated;
    AllowedLately(udp, es, s, m, slot, z);
    BroadcastEach(s, m, Some(slot), AnyClient, envs, i);
    BehindNumbers(s.clients[i].seat, m, Sized(s, m, Some(slot)).maxFrame, z, u, envs[i].grows);
  }

  /**
   And on a stream of frames of z bytes that number is exact: a client that is there, that owes its socket
   nothing, is not parked and has room, is handed the frame if and only if it is not behind by more.
   */
  lemma SteadyIsExact(udp: bool, es: seq<Event>, s: Stream, m: Message, slot: nat, envs: seq<Env>, z: nat,
                      i: nat, u: int)
    requires Run(Initial(udp), es, s) && Shape(s) && |envs| == MAX_CLIENTS && i < MAX_CLIENTS && slot < STREAM_COUNT
    requires m.kind == MSG_VIDEO && Sendable(m)
    requires Lately(Sizes(es, slot), z) && 15 <= z == |m.payload|
    requires envs[i] == Env(Some(u), true)
    requires var c := s.clients[i];
             Eligible(c.seat, Some(slot), AnyClient) && !c.feed.waiting && c.feed.out.tail == []
    ensures HandedNothing(s.clients[i], Broadcast(s, m, Some(slot), AnyClient, envs).clients[i])
            && Broadcast(s, m, Some(slot), AnyClient, envs).clients[i] != NO_CLIENT
            <==> u > Tolerated(s.clients[i].seat, z)
  {
    hide Wrap, Broadcast, Backlogged, Tolerated;
    var c := s.clients[i];
    AllowedLately(udp, es, s, m, slot, z);
    BroadcastEach(s, m, Some(slot), AnyClient, envs, i);
    BehindNumbers(c.seat, m, Sized(s, m, Some(slot)).maxFrame, z, u, true);
    assert Flush(c.feed.out) == (c.feed.out, false);
    HandsOver(c, m, Some(slot), Sized(s, m, Some(slot)).maxFrame, envs[i]);
  }

  lemma HandsOver(c: Client, m: Message, slot: Option<nat>, recent: nat, e: Env)
    requires Eligible(c.seat, slot, AnyClient) && !c.feed.waiting && c.feed.out.tail == []
    requires m.kind == MSG_VIDEO && e.grows
    ensures var r := Given(c, m, slot, AnyClient, recent, e);
            if Backlogged(c.seat, m, recent, e) then r.seat.used && r.feed.out.sent == c.feed.out.sent
            else r == NO_CLIENT || r.feed.out.sent == c.feed.out.sent + [Data(m)]
  {
    hide Wrap, Backlogged, Flush;
    NothingToFlush(c.feed.out);
  }

  lemma NothingToFlush(o: Out)
    requires o.tail == []
    ensures Flush(o) == (o, false)
  {
  }

  // ------------------------------------------------------------------ parked, behind with sound, too large

  /** A parked client is handed exactly the frames whose first flag is set, and the first of them unparks it. */
  lemma ParkedInNumbers(c: Client, m: Message, recent: nat)
    requires c.seat.used && c.seat.done && !c.seat.isWs && c.seat.onOld3ds && !c.seat.onDrc && !c.seat.onWiiu
    requires c.seat.codec in {7, 9, 10} && c.feed.waiting && c.feed.out.tail == [] && m.kind == 1
    ensures var r := Given(c, m, Some(5), AnyClient, recent, Env(None, true));
            if m.flags % 2 == 0 then r == c.(feed := c.feed.(log := c.feed.log + [Frame(false, false)]))
            else r == NO_CLIENT || (!r.feed.waiting && r.feed.out.sent == c.feed.out.sent + [Data(m)])
  {
    hide Wrap, Flush;
    NothingToFlush(c.feed.out);
  }

  /** A client that cannot be written to is given up when its sound would come to more than 262144 bytes. */
  lemma SoundInNumbers(c: Client, m: Message, recent: nat, unsent: Option<int>)
    requires c.seat.used && c.seat.done && m.kind == 2 && c.feed.out.net == []
    ensures var r := Given(c, m, None, AnyClient, recent, Env(unsent, true));
            if |c.feed.out.tail| + |Wrap(c.seat.isWs, m)| > 262144 then r == NO_CLIENT
            else r.seat == c.seat && r.feed.out.tail == c.feed.out.tail + Wrap(c.seat.isWs, m)
                 && r.feed.out.sent == c.feed.out.sent + [Data(m)]
  {
    hide Wrap;
  }

  /** Four mebibytes is the most one message can carry: a larger one is written to nobody. */
  lemma TooLargeInNumbers(s: Stream, m: Message, slot: Option<nat>, filter: AudioFilter, es: seq<Env>, i: nat)
    requires Shape(s) && |es| == MAX_CLIENTS && i < MAX_CLIENTS && (slot.Some? ==> slot.value < STREAM_COUNT)
    ensures |m.payload| > 4194304 ==>
              Broadcast(s, m, slot, filter, es).clients[i].feed.out == s.clients[i].feed.out
    ensures |m.payload| <= 4194304 ==>
              Broadcast(s, m, slot, filter, es).clients[i]
              == Given(s.clients[i], m, slot, filter, Sized(s, m, slot).maxFrame, es[i])
  {
    hide Given, Sized, DeliverTo;
    BroadcastEach(s, m, slot, filter, es, i);
  }
}
