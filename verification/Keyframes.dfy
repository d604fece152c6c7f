/**
 Asking the pipeline for keyframes: a client that is passed over, or is new, is useless until one
 comes. Two ways to ask -- at once after a broadcast, or at the end of the accept thread's pass -- share
 one clock, so that falling behind is not answered with a flood of the largest frames there are.
 */
module Keyframes {
  import opened Bytes
  import opened Wire
  import opened ClientModel
  import opened StreamModel
  import opened Broadcasting
  import opened Transport
  import opened Invariant
  import opened PredictionRuns
  import opened Greeting
  import opened Comings

  const MIN_GAP: nat := 1000

  /** A request waiting for the next pass, and when the last one was made. `asked` is history: the time
      of every request made. */
  datatype Desk = Desk(pending: bool, last: nat, asked: seq<nat>)

  const QUIET: Desk := Desk(false, 0, [])

  predicate DeskOk(d: Desk) {
    d.last == if d.asked == [] then 0 else d.asked[|d.asked| - 1]
  }

  predicate Rested(d: Desk, now: nat) {
    Since(now, d.last) >= MIN_GAP
  }

  function Ask(d: Desk, now: nat): Desk {
    d.(last := now, asked := d.asked + [now])
  }

  /** After a video broadcast that passed somebody over; pictures that stand alone are not worth one. */
  function AfterSend(d: Desk, slot: Option<nat>, old3dsCodec: byte, skipped: bool, now: nat): Desk {
    if skipped && (slot != Some(STREAM_OLD3DS) || PredictiveCodec(old3dsCodec)) && Rested(d, now)
    then Ask(d, now) else d
  }

  /** At the end of a pass, whatever the clock says. */
  function AfterPass(d: Desk, now: nat): Desk {
    if d.pending then Ask(d, now).(pending := false) else d
  }

  /** A message that leaves a request: another codec for a client that is not an Old 3DS, or the
      client's own wish, if the last request is not too recent. */
  predicate Wants(s: Stream, c: Seat, m: Message, d: Desk, now: nat) {
    || (m.kind == MSG_CODEC && !c.onOld3ds && WantsCodec(s, c, m))
    || (m.kind == MSG_KEYFRAME && Rested(d, now))
  }

  function AfterMessages(s: Stream, i: nat, capacity: nat, d: Desk, now: nat): (r: Desk)
    requires Shape(s) && i < MAX_CLIENTS && HEADER_SIZE <= capacity
    ensures r == d.(pending := r.pending) && (d.pending ==> r.pending)
    decreases |s.clients[i].rx|
  {
    var p := NextPiece(s.clients[i].rx, capacity);
    if !p.Piece? then d
    else
      var wants := Wants(s, s.clients[i].seat, p.message, d, now);
      AfterMessages(HandlePiece(s, i, p), i, capacity, d.(pending := d.pending || wants), now)
  }

  /** A greeted newcomer has seen no picture: unless its stream's pictures stand alone, it needs one. */
  predicate NeedsOne(s: Stream, c: Seat) {
    !c.onOld3ds || PredictiveCodec(s.old3dsCodec)
  }

  function AfterReceive(s: Stream, i: nat, answer: bool, d: Desk, now: nat): (r: Desk)
    requires Shape(s) && i < MAX_CLIENTS
    ensures r == d.(pending := r.pending) && (d.pending ==> r.pending)
  {
    var c := s.clients[i].seat;
    var s2 := if c.done then s else HandleHello(s, i, answer);
    var there := s2.clients[i].seat.used && s2.clients[i].seat.done;
    var d2 := d.(pending := d.pending || (there && !c.done && NeedsOne(s, c)));
    if there then AfterMessages(s2, i, RX_CAPACITY, d2, now) else d2
  }

  /** What a step of the transport does at the desk. */
  function Noted(s: Stream, d: Desk, e: Event, now: nat): Desk
    requires Shape(s) && Enabled(s, e)
  {
    match e
    case Media(m, slot, filter, envs) =>
      AfterSend(d, slot, s.old3dsCodec, m.kind == MSG_VIDEO && AnyHeldBack(s, m, slot, filter, envs), now)
    case BrowserArrives(control, t, net) => d.(pending := d.pending || Adopt(s, control, t, net).1)
    case NativeBytes(i, data, t, answer) =>
      AfterReceive(Put(s, i, Hearing(s.clients[i], data, t)), i, answer, d, now)
    case BrowserBytes(i, data, capacity, t) =>
      AfterMessages(Put(s, i, Hearing(s.clients[i], data, t)), i, capacity, d, now)
    case _ => d
  }

  datatype Keyed = Keyed(stream: Stream, desk: Desk)

  /** A step of the transport, at the time its clock shows, or the end of a pass of the accept thread. */
  datatype Act = Did(e: Event, now: nat) | Passed(now: nat)

  predicate Possible(k: Keyed, a: Act)
    requires Shape(k.stream)
  {
    a.Did? ==> Enabled(k.stream, a.e)
  }

  function Acted(k: Keyed, a: Act): (r: Keyed)
    requires Shape(k.stream) && Possible(k, a)
    ensures Shape(r.stream)
  {
    match a
    case Did(e, now) => Keyed(Step(k.stream, e), Noted(k.stream, k.desk, e, now))
    case Passed(now) => k.(desk := AfterPass(k.desk, now))
  }

  predicate ActRun(k: Keyed, acts: seq<Act>, r: Keyed)
    requires Shape(k.stream)
    decreases |acts|
  {
    if acts == [] then r == k else Possible(k, acts[0]) && ActRun(Acted(k, acts[0]), acts[1..], r)
  }

  /**
   What one step does to the requests made: at most one more, made now. A step of the transport makes
   one only when the last is at least a second old; the end of a pass makes one exactly if it is pending,
   and is the only thing that settles what is pending.
   */
  lemma ActExact(k: Keyed, a: Act)
    requires Shape(k.stream) && Possible(k, a) && DeskOk(k.desk)
    ensures var d, r := k.desk, Acted(k, a).desk;
            && DeskOk(r)
            && (r.asked == d.asked || r.asked == d.asked + [a.now])
            && (a.Did? && r.asked != d.asked ==> Rested(d, a.now))
            && (a.Passed? ==> (r.asked != d.asked <==> d.pending) && !r.pending)
            && (a.Did? && d.pending ==> r.pending)
  {
    hide Step, AnyHeldBack, Adopt, HandleHello, HandlePiece, NextPiece;
  }

  lemma {:induction false} RunDesk(k: Keyed, acts: seq<Act>, r: Keyed)
    requires Inv(k.stream) && DeskOk(k.desk) && ActRun(k, acts, r)
    ensures Inv(r.stream) && DeskOk(r.desk) && k.desk.asked <= r.desk.asked
    ensures k.desk.pending ==> r.desk.pending || |r.desk.asked| > |k.desk.asked|
    decreases |acts|
  {
    hide Acted, DeskOk, Possible, ClientsOk, Browsers, ConsolesDistinct, Counts;
    if acts != [] {
      ActExact(k, acts[0]);
      ActKeepsStream(k, acts[0]);
      RunDesk(Acted(k, acts[0]), acts[1..], r);
    }
  }

  lemma ActKeepsStream(k: Keyed, a: Act)
    requires Inv(k.stream) && Possible(k, a)
    ensures Inv(Acted(k, a).stream)
  {
    hide Noted, Step, Enabled;
    if a.Did? {
      StepInv(k.stream, a.e);
    }
  }

  function Begin(udp: bool): Keyed {
    Keyed(Initial(udp), QUIET)
  }

  lemma ReachableOk(udp: bool, acts: seq<Act>, k: Keyed)
    requires ActRun(Begin(udp), acts, k)
    ensures Inv(k.stream) && DeskOk(k.desk)
  {
    hide Inv;
    InitialInv(udp);
    RunDesk(Begin(udp), acts, k);
  }

  // ------------------------------------------------------------------ clients that are passed over

  /** A request less than a second old -- or a process less than a second old. */
  predicate AskedLately(d: Desk, now: nat) {
    Since(now, if d.asked == [] then 0 else d.asked[|d.asked| - 1]) < MIN_GAP
  }

  /** A broadcast asks for a keyframe if and only if it passed somebody over whom one would help and no
      request is less than a second old; and then one is. */
  lemma SendAsksExact(k: Keyed, m: Message, slot: Option<nat>, filter: AudioFilter, es: seq<Env>, now: nat)
    requires Shape(k.stream) && Enabled(k.stream, Media(m, slot, filter, es)) && DeskOk(k.desk)
    ensures var r := Acted(k, Did(Media(m, slot, filter, es), now)).desk;
            var due := m.kind == MSG_VIDEO && AnyHeldBack(k.stream, m, slot, filter, es)
                       && (slot != Some(STREAM_OLD3DS) || PredictiveCodec(k.stream.old3dsCodec));
            && (r.asked == k.desk.asked + [now] <==> due && !AskedLately(k.desk, now))
            && (due ==> AskedLately(r, now))
  {
    hide Step, AnyHeldBack;
  }

  /**
   In any reachable state, whenever a frame of a predictive Old 3DS stream passes over a client that
   predicts -- because it is parked or because it is behind -- a keyframe is asked for in that very
   broadcast, or was less than a second before.
   */
  lemma PassedOverIsAskedFor(udp: bool, acts: seq<Act>, k: Keyed, m: Message, slot: Option<nat>,
                             filter: AudioFilter, es: seq<Env>, now: nat, i: nat)
    requires ActRun(Begin(udp), acts, k) && Shape(k.stream) && Enabled(k.stream, Media(m, slot, filter, es))
    requires i < MAX_CLIENTS && Follows(k.stream.clients[i].seat) && PredictiveCodec(k.stream.old3dsCodec)
    requires m.kind == MSG_VIDEO && Sendable(m)
    requires HeldBackAt(Sized(k.stream, m, slot), i, m, slot, filter, es[i])
    ensures AskedLately(Acted(k, Did(Media(m, slot, filter, es), now)).desk, now)
  {
    hide Acted, AskedLately, HeldBackAt, Inv;
    ReachableOk(udp, acts, k);
    SendAsksExact(k, m, slot, filter, es, now);
  }

  /** And a client that a broadcast parks has been passed over by it. */
  lemma ParkedIsPassedOver(c: Client, m: Message, slot: Option<nat>, filter: AudioFilter, recent: nat, e: Env)
    requires Follows(c.seat) && !c.feed.waiting
    ensures var r := Given(c, m, slot, filter, recent, e);
            r.seat.used && r.feed.waiting ==>
              m.kind == MSG_VIDEO && HeldBack(c.seat, c.feed, m, slot, filter, recent, e)
  {
    hide Flush, Wrap, Allowance;
  }

  // ------------------------------------------------------------------ clients that are new

  /** A native client that is greeted, on a stream where it matters, leaves a request. */
  lemma GreetedIsPending(k: Keyed, i: nat, data: seq<byte>, t: nat, answer: bool, now: nat)
    requires Shape(k.stream) && Enabled(k.stream, NativeBytes(i, data, t, answer))
    requires !k.stream.clients[i].seat.done && NeedsOne(k.stream, k.stream.clients[i].seat)
    requires HandleHello(Put(k.stream, i, Hearing(k.stream.clients[i], data, t)), i, answer).clients[i].seat.used
    requires HandleHello(Put(k.stream, i, Hearing(k.stream.clients[i], data, t)), i, answer).clients[i].seat.done
    ensures Acted(k, Did(NativeBytes(i, data, t, answer), now)).desk.pending
  {
    hide Step, HandleHello, AfterMessages;
  }

  /** So does every browser that is taken in. */
  lemma BrowserIsPending(k: Keyed, control: bool, t: nat, net: seq<int>, now: nat)
    requires Shape(k.stream) && Adopt(k.stream, control, t, net).1
    ensures Acted(k, Did(BrowserArrives(control, t, net), now)).desk.pending
  {
    hide Step, Adopt;
  }

  /**
   A greeted native client's message, at the front of what it sends: another codec than it has, if that can be
   had, leaves a request whatever the clock says; a wish leaves one if the last request was made a second ago
   or longer; and nothing else does.
   */
  lemma WishIsPending(k: Keyed, i: nat, m: Message, more: seq<byte>, t: nat, answer: bool, last: nat, d: nat)
    requires Shape(k.stream) && Enabled(k.stream, NativeBytes(i, Encode(m) + more, t, answer))
    requires k.stream.clients[i].seat.done && k.stream.clients[i].rx == [] && |m.payload| <= 504
    requires d < 0x1_0000_0000 && k.desk.last == last % 0x1_0000_0000
    ensures var c := k.stream.clients[i].seat;
            var retunes := m.kind == 20 && !c.onOld3ds && |m.payload| == 1 && m.payload[0] != c.codec
                           && (m.payload[0] == 1 || m.payload[0] == 3
                               || (m.payload[0] == 4 && k.stream.drcAvailable));
            var wishes := m.kind == 22 && d >= 1000;
            var now := (last + d) % 0x1_0000_0000;
            var r := Acted(k, Did(NativeBytes(i, Encode(m) + more, t, answer), now)).desk;
            && (k.desk.pending || retunes || wishes ==> r.pending)
            && (more == [] ==> (r.pending <==> k.desk.pending || retunes || wishes))
  {
    hide Step, NextPiece, HandlePiece, Encode, HandleHello, Since;
    var s1 := Put(k.stream, i, Hearing(k.stream.clients[i], Encode(m) + more, t));
    assert [] + (Encode(m) + more) == Encode(m) + more;
    OnePieceReadsBack(m, more);
    var p := NextPiece(Encode(m) + more, RX_CAPACITY);
    SinceInNumbers(last, d);
    var now := (last + d) % 0x1_0000_0000;
    if more == [] {
      PieceTaken(s1, i, p);
      NothingIsIncomplete();
      var s2 := HandlePiece(s1, i, p);
      assert s2.clients[i].rx == [];
      var d2 := k.desk.(pending := k.desk.pending || Wants(s1, s1.clients[i].seat, m, k.desk, now));
      assert AfterMessages(s2, i, RX_CAPACITY, d2, now) == d2;
    }
  }

  lemma PieceTaken(s: Stream, i: nat, p: Piece)
    requires Shape(s) && i < MAX_CLIENTS && p.Piece? && HEADER_SIZE <= p.used <= |s.clients[i].rx|
    ensures HandlePiece(s, i, p).clients[i].rx == s.clients[i].rx[p.used..]
  {
    hide Dispatch, Counts;
  }

  /** And what is pending is never forgotten: after any further run it still is, or a keyframe has been
      asked for since; the end of the next pass asks. */
  lemma PendingIsAskedFor(udp: bool, before: seq<Act>, k: Keyed, acts: seq<Act>, r: Keyed, now: nat)
    requires ActRun(Begin(udp), before, k) && Shape(k.stream) && k.desk.pending && ActRun(k, acts, r)
    ensures r.desk.pending || |r.desk.asked| > |k.desk.asked|
    ensures Acted(k, Passed(now)).desk.asked == k.desk.asked + [now]
  {
    hide Inv;
    ReachableOk(udp, before, k);
    RunDesk(k, acts, r);
  }

  /**
   A switch of the Old 3DS stream parks every client on it and asks for nothing: the request waits for
   the first frame that passes one of them over.
   */
  lemma SwitchAsksForNothing(s: Stream, c: Seat, m: Message, d: Desk, now: nat)
    requires c.onOld3ds && m.kind == MSG_CODEC
    ensures !Wants(s, c, m, d, now)
  {
  }

  // ------------------------------------------------------------------ the two fields

  class KeyframeDesk {
    var pending: bool
    var last: nat
    ghost var asked: seq<nat>

    ghost function View(): Desk
      reads this
    {
      Desk(pending, last, asked)
    }

    constructor ()
      ensures View() == QUIET
    {
      pending, last, asked := false, 0, [];
    }

    /** After a video broadcast; says whether the pipeline is asked. */
    method NoteSend(slot: Option<nat>, old3dsCodec: byte, skipped: bool, now: nat) returns (ask: bool)
      modifies `last, `asked
      ensures View() == AfterSend(old(View()), slot, old3dsCodec, skipped, now)
      ensures ask <==> View() != old(View())
    {
      ask := false;
      if skipped && (slot != Some(STREAM_OLD3DS) || PredictiveCodec(old3dsCodec)) && Since(now, last) >= MIN_GAP {
        last := now;
        asked := asked + [now];
        ask := true;
        assert |asked| > |old(asked)|;
      }
    }

    /** At the end of a pass of the accept thread. */
    method NotePass(now: nat) returns (ask: bool)
      modifies this
      ensures View() == AfterPass(old(View()), now)
      ensures ask <==> old(pending)
    {
      ask := pending;
      if pending {
        pending := false;
        last := now;
        asked := asked + [now];
      }
    }

    /** A client's own request. */
    method NoteWish(now: nat)
      modifies `pending
      ensures View() == old(View()).(pending := old(pending) || Rested(old(View()), now))
    {
      if Since(now, last) >= MIN_GAP {
        pending := true;
      }
    }

    /** A newcomer, or a client on another codec. */
    method NoteNewcomer()
      modifies `pending
      ensures View() == old(View()).(pending := true)
    {
      pending := true;
    }
  }
}
