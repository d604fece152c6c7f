/**
 Which chains are fed: the pipeline's `wanted` flags follow the transport's audience, and two of
 them also a setting. The transport and the flags are one machine here: every step of the transport,
 and every look the callback takes at one chain, in any interleaving.
 */
module Demand {
  import opened Bytes
  import opened Wire
  import opened ClientModel
  import opened StreamModel
  import opened Transport
  import opened Invariant

  // ------------------------------------------------------------------ the transport's side

  /** No step moves a count without leaving the mark, and no step but the taking removes it. */
  predicate Marks(s: Stream, r: Stream) {
    (s.dirty ==> r.dirty) && (r.live != s.live ==> r.dirty)
  }

  lemma MarksDrop(s: Stream, i: nat)
    requires i < |s.clients|
    ensures Marks(s, Drop(s, i))
  {
    hide Counts;
  }

  lemma {:induction false} MarksDeliver(s: Stream, n: nat, m: Message, slot: Option<nat>,
                                        filter: AudioFilter, es: seq<Env>)
    requires n <= |s.clients| == |es|
    ensures Marks(s, DeliverTo(s, n, m, slot, filter, es))
  {
    hide Deliver, Counts;
    if n > 0 {
      MarksDeliver(s, n - 1, m, slot, filter, es);
      MarksDrop(DeliverTo(s, n - 1, m, slot, filter, es), n - 1);
    }
  }

  lemma MarksBroadcast(s: Stream, m: Message, slot: Option<nat>, filter: AudioFilter, es: seq<Env>)
    requires Shape(s) && |es| == MAX_CLIENTS && (slot.Some? ==> slot.value < STREAM_COUNT)
    ensures Marks(s, Broadcast(s, m, slot, filter, es))
  {
    hide DeliverTo;
    MarksDeliver(Sized(s, m, slot), MAX_CLIENTS, m, slot, filter, es);
  }

  lemma {:induction false} MarksEvict(s: Stream, n: nat, peer: nat)
    requires n <= |s.clients|
    ensures Marks(s, EvictTo(s, n, peer))
  {
    hide Counts;
    if n > 0 {
      MarksEvict(s, n - 1, peer);
      MarksDrop(EvictTo(s, n - 1, peer), n - 1);
    }
  }

  lemma {:induction false} MarksMessages(s: Stream, i: nat, capacity: nat)
    requires Shape(s) && i < MAX_CLIENTS && HEADER_SIZE <= capacity
    ensures Marks(s, HandleMessages(s, i, capacity))
    decreases |s.clients[i].rx|
  {
    hide Dispatch, Counts, NextPiece;
    var p := NextPiece(s.clients[i].rx, capacity);
    if p.Piece? {
      MarksMessages(HandlePiece(s, i, p), i, capacity);
    }
  }

  lemma MarksReceive(s: Stream, i: nat, data: seq<byte>, now: nat, answer: bool)
    requires Shape(s) && i < MAX_CLIENTS
    ensures Marks(s, Receive(s, i, data, now, answer))
  {
    hide HandleMessages, ParseHello, Introduced, Welcomed, Told, AckFor, Counts;
    var s1 := Put(s, i, Hearing(s.clients[i], data, now));
    MarksDrop(s1, i);
    var s2 := if s.clients[i].seat.done then s1 else HandleHello(s1, i, answer);
    MarksMessages(s2, i, RX_CAPACITY);
  }

  /** Any step of the transport but the taking itself: a moved count is never left unmarked. */
  lemma CountsNeverMoveUnmarked(s: Stream, e: Event)
    requires Shape(s) && Enabled(s, e) && !e.DemandTaken?
    ensures Marks(s, Step(s, e))
  {
    hide Broadcast, Counts, Browsers, EvictTo, HandleMessages, Receive, Told, SendNow, Ack, StreamInfo,
         SharedSettings, Probed, FirstFree;
    match e {
      case Media(m, slot, filter, envs) => MarksBroadcast(s, m, slot, filter, envs);
      case StreamShape(slot, w, h, envs) =>
        var s1 := s.(groups := s.groups[slot := s.groups[slot].(width := w, height := h, known := true)]);
        MarksBroadcast(s1, Message(MSG_STREAM_INFO, 0, StreamInfo(w, h, SlotCodec(s, slot))),
                       Some(slot), AnyClient, envs);
      case Settings(slot, w, h, fps, kbps, mjpeg, envs) =>
        var sh := SharedSettings(w, h, fps, kbps, SlotCodec(s, slot), mjpeg);
        var s1 := s.(groups := s.groups[slot := s.groups[slot].(shared := sh, sharedKnown := true)]);
        MarksBroadcast(s1, Message(MSG_SHARED, 0, sh), Some(slot), AnyClient, envs);
      case NativeArrives(_, peer, _, _) => MarksEvict(s, MAX_CLIENTS, peer);
      case NativeBytes(i, data, now, answer) => MarksReceive(s, i, data, now, answer);
      case BrowserBytes(i, data, capacity, now) =>
        MarksMessages(Put(s, i, Hearing(s.clients[i], data, now)), i, capacity);
      case Closed(i) => MarksDrop(s, i);
      case Nothing(i, _) => MarksDrop(s, i);
      case _ =>
    }
  }

  /** A positive count is a real audience. */
  lemma {:induction false} CountedIsThere(cs: seq<Client>, slot: nat)
    ensures Count(cs, slot) > 0 <==> exists i :: 0 <= i < |cs| && OnStream(cs[i].seat, slot)
  {
    if cs != [] {
      var n := |cs| - 1;
      CountedIsThere(cs[..n], slot);
      if i :| 0 <= i < |cs| && OnStream(cs[i].seat, slot) {
        assert i < n ==> cs[..n][i] == cs[i];
      }
      if Count(cs[..n], slot) > 0 {
        var j :| 0 <= j < n && OnStream(cs[..n][j].seat, slot);
        assert OnStream(cs[j].seat, slot);
      }
    }
  }

  /** Somebody is watching this stream. */
  predicate Watched(cs: seq<Client>, slot: nat) {
    exists i :: 0 <= i < |cs| && OnStream(cs[i].seat, slot)
  }

  // ------------------------------------------------------------------ the pipeline's side

  datatype Flags = Flags(wanted: seq<bool>, drcAllowed: bool, wiiuAllowed: bool)

  predicate Allowed(f: Flags, slot: nat) {
    (slot == STREAM_DRC ==> f.drcAllowed) && (slot == STREAM_WIIU ==> f.wiiuAllowed)
  }

  /** One chain re-examined, when this many clients are on its stream. */
  function Look(f: Flags, slot: nat, count: nat): (r: Flags)
    requires slot < |f.wanted|
    ensures |r.wanted| == |f.wanted|
  {
    f.(wanted := f.wanted[slot := count > 0 && Allowed(f, slot)])
  }

  /** The first n chains re-examined; `seen[k]` is the count when chain k is looked at. */
  function LookedThrough(f: Flags, seen: seq<nat>, n: nat): (r: Flags)
    requires n <= |seen| == |f.wanted|
    ensures |r.wanted| == |f.wanted|
  {
    if n == 0 then f else Look(LookedThrough(f, seen, n - 1), n - 1, seen[n - 1])
  }

  function WiiuSet(f: Flags, on: bool): (r: Flags)
    requires |f.wanted| == STREAM_COUNT
    ensures |r.wanted| == STREAM_COUNT
  {
    f.(wiiuAllowed := on, wanted := if on then f.wanted else f.wanted[STREAM_WIIU := false])
  }

  function DrcSet(f: Flags, on: bool): (r: Flags)
    requires |f.wanted| == STREAM_COUNT
    ensures |r.wanted| == STREAM_COUNT
  {
    f.(drcAllowed := on, wanted := if on then f.wanted else f.wanted[STREAM_DRC := false])
  }

  // ------------------------------------------------------------------ the two together

  /**
   `serving` and `applying` are the chains that the callback will look at next, run by the accept
   thread for a marked count and by the settings for the GamePad; STREAM_COUNT when it is not running.
   `unlooked` is history: the Wii U setting was turned on and its chain has not been looked at since.
   */
  datatype Joint = Joint(stream: Stream, flags: Flags, serving: nat, applying: nat, unlooked: bool)

  /** What a chain that starts tells its clients. */
  datatype Announcement = Announcement(
    width: nat, height: nat, fps: nat, kbps: nat, mjpeg: byte, shapeEnvs: seq<Env>, settingsEnvs: seq<Env>)

  datatype Move =
    | Transported(e: Event)
    | Serve
    | ServeLook(a: Announcement)
    | ApplyLook(a: Announcement)
    | WiiuSetting(on: bool)
    | DrcSetting(on: bool)

  predicate JointShape(j: Joint) {
    Shape(j.stream) && |j.flags.wanted| == STREAM_COUNT && j.serving <= STREAM_COUNT && j.applying <= STREAM_COUNT
  }

  predicate Announces(a: Announcement) {
    |a.shapeEnvs| == MAX_CLIENTS && |a.settingsEnvs| == MAX_CLIENTS
  }

  predicate Possible(j: Joint, m: Move)
    requires JointShape(j)
  {
    match m
    case Transported(e) => !e.DemandTaken? && Enabled(j.stream, e)
    case Serve => j.serving == STREAM_COUNT
    case ServeLook(a) => j.serving < STREAM_COUNT && Announces(a)
    case ApplyLook(a) => j.applying < STREAM_COUNT && Announces(a)
    case WiiuSetting(_) => true
    case DrcSetting(_) => j.applying == STREAM_COUNT
  }

  function Announced(s: Stream, slot: nat, a: Announcement): (r: Stream)
    requires Shape(s) && slot < STREAM_COUNT && Announces(a)
    ensures Shape(r)
  {
    AnnounceShared(AnnounceStream(s, slot, a.width, a.height, a.shapeEnvs),
                   slot, a.width, a.height, a.fps, a.kbps, a.mjpeg, a.settingsEnvs)
  }

  /** The callback's turn for one chain: a chain that starts is announced to those on it. */
  function Looked(j: Joint, slot: nat, a: Announcement): (r: Joint)
    requires JointShape(j) && slot < STREAM_COUNT && Announces(a)
    ensures JointShape(r) && r.serving == j.serving && r.applying == j.applying
  {
    var f := Look(j.flags, slot, j.stream.live[slot]);
    var starts := f.wanted[slot] && !j.flags.wanted[slot];
    j.(flags := f, unlooked := j.unlooked && slot != STREAM_WIIU,
       stream := if starts then Announced(j.stream, slot, a) else j.stream)
  }

  function Moved(j: Joint, m: Move): (r: Joint)
    requires JointShape(j) && Possible(j, m)
    ensures JointShape(r)
  {
    match m
    case Transported(e) => j.(stream := Step(j.stream, e))
    case Serve =>
      if j.stream.dirty then j.(stream := Step(j.stream, DemandTaken), serving := 0) else j
    case ServeLook(a) => Looked(j, j.serving, a).(serving := j.serving + 1)
    case ApplyLook(a) => Looked(j, j.applying, a).(applying := j.applying + 1)
    case WiiuSetting(on) =>
      j.(flags := WiiuSet(j.flags, on), unlooked := on && (j.unlooked || !j.flags.wiiuAllowed))
    case DrcSetting(on) =>
      if on == j.flags.drcAllowed then j else j.(flags := DrcSet(j.flags, on), applying := 0)
  }

  /** A chain that should be fed is, and no other: what the flags are for. */
  predicate Right(j: Joint, k: nat)
    requires JointShape(j) && k < STREAM_COUNT
  {
    j.flags.wanted[k] <==> Watched(j.stream.clients, k) && Allowed(j.flags, k)
  }

  /** What is known of chain k by its count, once it has been looked at since the counts last moved. */
  predicate UpToDate(j: Joint, k: nat)
    requires JointShape(j) && k < STREAM_COUNT
  {
    && (j.flags.wanted[k] ==> j.stream.live[k] > 0)
    && ((k == STREAM_WIIU ==> !j.unlooked) && (k == STREAM_DRC ==> k < j.applying) ==>
          (j.flags.wanted[k] <==> j.stream.live[k] > 0 && Allowed(j.flags, k)))
  }

  predicate FlagsOk(j: Joint)
    requires JointShape(j)
  {
    && (forall k :: 0 <= k < STREAM_COUNT && j.flags.wanted[k] ==> Allowed(j.flags, k))
    && (j.unlooked ==> j.flags.wiiuAllowed && !j.flags.wanted[STREAM_WIIU])
    && (!j.stream.dirty ==> forall k :: 0 <= k < j.serving ==> UpToDate(j, k))
  }

  predicate JointInv(j: Joint) {
    JointShape(j) && Inv(j.stream) && FlagsOk(j)
  }

  lemma TransportedOk(j: Joint, e: Event)
    requires JointInv(j) && Possible(j, Transported(e))
    ensures JointInv(Moved(j, Transported(e)))
  {
    hide Step, Enabled, Counts, Browsers, ConsolesDistinct, ClientsOk;
    StepInv(j.stream, e);
    CountsNeverMoveUnmarked(j.stream, e);
    var r := Moved(j, Transported(e));
    forall k | !r.stream.dirty && 0 <= k < r.serving
      ensures UpToDate(r, k)
    {
      assert UpToDate(j, k);
    }
  }

  lemma AnnouncedOk(s: Stream, slot: nat, a: Announcement)
    requires Inv(s) && slot < STREAM_COUNT && Announces(a)
    ensures Inv(Announced(s, slot, a)) && Marks(s, Announced(s, slot, a))
  {
    hide AnnounceStream, AnnounceShared, ClientsOk, Counts, Browsers, ConsolesDistinct;
    var e1 := StreamShape(slot, a.width, a.height, a.shapeEnvs);
    StepInv(s, e1);
    CountsNeverMoveUnmarked(s, e1);
    var s1 := Step(s, e1);
    var e2 := Settings(slot, a.width, a.height, a.fps, a.kbps, a.mjpeg, a.settingsEnvs);
    StepInv(s1, e2);
    CountsNeverMoveUnmarked(s1, e2);
  }

  /** After a look at a chain it is up to date, and no other chain is less so. */
  lemma LookedOk(j: Joint, slot: nat, a: Announcement)
    requires JointInv(j) && slot < STREAM_COUNT && Announces(a)
    ensures var r := Looked(j, slot, a);
            Inv(r.stream) && Marks(j.stream, r.stream)
            && (forall k :: 0 <= k < STREAM_COUNT && r.flags.wanted[k] ==> Allowed(r.flags, k))
            && (r.unlooked ==> r.flags.wiiuAllowed && !r.flags.wanted[STREAM_WIIU])
            && (!r.stream.dirty ==>
                  (r.flags.wanted[slot] <==> r.stream.live[slot] > 0 && Allowed(r.flags, slot))
                  && forall k :: 0 <= k < j.serving ==> UpToDate(r, k))
  {
    hide Inv, Announced;
    AnnouncedOk(j.stream, slot, a);
    var r := Looked(j, slot, a);
    forall k | !r.stream.dirty && 0 <= k < j.serving
      ensures UpToDate(r, k)
    {
      assert UpToDate(j, k);
    }
  }

  lemma MovedOk(j: Joint, m: Move)
    requires JointInv(j) && Possible(j, m)
    ensures JointInv(Moved(j, m))
  {
    hide Inv, Looked, Enabled, Shape;
    match m {
      case Transported(e) => TransportedOk(j, e);
      case Serve => TakenOk(j.stream);
      case ServeLook(_) => LookMoveOk(j, m);
      case ApplyLook(_) => LookMoveOk(j, m);
      case WiiuSetting(_) =>
        assert forall k :: 0 <= k < STREAM_COUNT && UpToDate(j, k) ==> UpToDate(Moved(j, m), k);
      case DrcSetting(_) =>
        assert forall k :: 0 <= k < STREAM_COUNT && UpToDate(j, k) ==> UpToDate(Moved(j, m), k);
    }
  }

  /** One turn of the callback, whichever thread runs it. */
  lemma LookMoveOk(j: Joint, m: Move)
    requires JointInv(j) && Possible(j, m) && (m.ServeLook? || m.ApplyLook?)
    ensures JointInv(Moved(j, m))
  {
    hide Inv, Looked, Shape;
    var slot := if m.ServeLook? then j.serving else j.applying;
    LookedOk(j, slot, m.a);
    var l, r := Looked(j, slot, m.a), Moved(j, m);
    forall k | !r.stream.dirty && 0 <= k < r.serving
      ensures UpToDate(r, k)
    {
      assert k < j.serving ==> UpToDate(l, k);
    }
  }

  lemma TakenOk(s: Stream)
    requires Inv(s)
    ensures Enabled(s, DemandTaken) && Inv(Step(s, DemandTaken))
  {
    FrameInv(s, Step(s, DemandTaken));
  }

  predicate JointRun(j: Joint, ms: seq<Move>, r: Joint)
    requires JointShape(j)
    decreases |ms|
  {
    if ms == [] then r == j else Possible(j, ms[0]) && JointRun(Moved(j, ms[0]), ms[1..], r)
  }

  lemma {:induction false} JointRunOk(j: Joint, ms: seq<Move>, r: Joint)
    requires JointInv(j) && JointRun(j, ms, r)
    ensures JointInv(r)
    decreases |ms|
  {
    hide Moved, Possible, Inv, FlagsOk;
    if ms != [] {
      MovedOk(j, ms[0]);
      JointRunOk(Moved(j, ms[0]), ms[1..], r);
    }
  }

  function Start(udp: bool, drc: bool, wiiu: bool): Joint {
    Joint(Initial(udp), Flags(seq(STREAM_COUNT, _ => false), drc, wiiu), STREAM_COUNT, STREAM_COUNT, false)
  }

  lemma StartOk(udp: bool, drc: bool, wiiu: bool)
    ensures JointInv(Start(udp, drc, wiiu))
  {
    hide Inv;
    InitialInv(udp);
  }

  /** A clean mark, and no callback under way. */
  predicate Settled(j: Joint) {
    !j.stream.dirty && j.serving == STREAM_COUNT && j.applying == STREAM_COUNT
  }

  lemma SettledRight(j: Joint, k: nat)
    requires JointInv(j) && Settled(j) && k < STREAM_COUNT
    ensures j.flags.wanted[k] ==> Watched(j.stream.clients, k) && Allowed(j.flags, k)
    ensures Right(j, k) <==> !(k == STREAM_WIIU && j.unlooked && Watched(j.stream.clients, k))
  {
    hide ClientsOk, Browsers, ConsolesDistinct, Count, OnStream;
    CountedIsThere(j.stream.clients, k);
    assert UpToDate(j, k);
    assert j.stream.live[k] == Count(j.stream.clients, k);
  }

  /**
   After any run of the transport and the pipeline together that has settled: a chain is fed only
   while a greeted client is on its stream and its setting is on -- and it is fed whenever that is so,
   with one exception, exactly: a watched Wii U console chain whose setting was turned on unlooked.
   */
  lemma WantedHasAudienceAlways(udp: bool, drc: bool, wiiu: bool, ms: seq<Move>, r: Joint, k: nat)
    requires JointRun(Start(udp, drc, wiiu), ms, r) && JointShape(r) && Settled(r) && k < STREAM_COUNT
    ensures r.flags.wanted[k] ==> Watched(r.stream.clients, k) && Allowed(r.flags, k)
    ensures Right(r, k) <==> !(k == STREAM_WIIU && r.unlooked && Watched(r.stream.clients, k))
  {
    hide JointInv, Right;
    StartOk(udp, drc, wiiu);
    JointRunOk(Start(udp, drc, wiiu), ms, r);
    SettledRight(r, k);
  }

  /**
   The same in numbers, at any time: the GamePad's chain, the fourth, is never fed while its setting is off, nor
   the Wii U console's, the fifth. Once settled, a chain is fed exactly while somebody is counted on it --
   and, for those two, while the setting is on, if the fifth has been looked at since it was turned on.
   */
  lemma GatedInNumbers(udp: bool, drc: bool, wiiu: bool, ms: seq<Move>, r: Joint)
    requires JointRun(Start(udp, drc, wiiu), ms, r) && JointShape(r)
    ensures (r.flags.wanted[3] ==> r.flags.drcAllowed) && (r.flags.wanted[4] ==> r.flags.wiiuAllowed)
    ensures Settled(r) ==>
              && (forall k :: k in {0, 1, 2, 5} ==> (r.flags.wanted[k] <==> r.stream.live[k] > 0))
              && (r.flags.wanted[3] <==> r.stream.live[3] > 0 && r.flags.drcAllowed)
              && (r.flags.wanted[4] <==> r.stream.live[4] > 0 && r.flags.wiiuAllowed && !r.unlooked)
  {
    hide Inv;
    StartOk(udp, drc, wiiu);
    JointRunOk(Start(udp, drc, wiiu), ms, r);
    if Settled(r) {
      assert UpToDate(r, 0) && UpToDate(r, 1) && UpToDate(r, 2);
      assert UpToDate(r, 3) && UpToDate(r, 4) && UpToDate(r, 5);
    }
  }

  /** Touching the Wii U setting leaves its chain right exactly if it is off now, was on, or is unwatched. */
  lemma WiiuSettingExact(j: Joint, on: bool)
    requires JointInv(j) && Settled(j) && Right(j, STREAM_WIIU)
    ensures Right(Moved(j, WiiuSetting(on)), STREAM_WIIU)
            <==> !on || j.flags.wiiuAllowed || !Watched(j.stream.clients, STREAM_WIIU)
  {
    hide Inv, Watched;
  }

  // ------------------------------------------------------------------ a callback that is not disturbed

  function LookThrough(j: Joint, n: nat, a: seq<Announcement>): (r: Joint)
    requires JointShape(j) && j.serving == 0 && n <= STREAM_COUNT == |a|
    requires forall k :: 0 <= k < |a| ==> Announces(a[k])
    ensures JointShape(r) && r.serving == n
  {
    if n == 0 then j else Moved(LookThrough(j, n - 1, a), ServeLook(a[n - 1]))
  }

  lemma {:induction false} LookThroughOk(j: Joint, n: nat, a: seq<Announcement>)
    requires JointInv(j) && j.serving == 0 && n <= STREAM_COUNT == |a|
    requires forall k :: 0 <= k < |a| ==> Announces(a[k])
    ensures JointInv(LookThrough(j, n, a)) && LookThrough(j, n, a).applying == j.applying
    ensures n > STREAM_WIIU ==> !LookThrough(j, n, a).unlooked
  {
    hide Inv, FlagsOk, Announced;
    if n > 0 {
      LookThroughOk(j, n - 1, a);
      MovedOk(LookThrough(j, n - 1, a), ServeLook(a[n - 1]));
    }
  }

  /** Served to the end without a count moving, every chain is right, the Wii U console's too. */
  lemma ServingPutsRight(j: Joint, a: seq<Announcement>, k: nat)
    requires JointInv(j) && j.stream.dirty && j.serving == STREAM_COUNT && j.applying == STREAM_COUNT
    requires |a| == STREAM_COUNT && (forall i :: 0 <= i < |a| ==> Announces(a[i])) && k < STREAM_COUNT
    ensures var r := LookThrough(Moved(j, Serve), STREAM_COUNT, a);
            !r.stream.dirty ==> Right(r, k)
  {
    hide Inv, FlagsOk, LookThrough, Right, Step;
    MovedOk(j, Serve);
    var s := Moved(j, Serve);
    LookThroughOk(s, STREAM_COUNT, a);
    var r := LookThrough(s, STREAM_COUNT, a);
    if !r.stream.dirty {
      SettledRight(r, k);
    }
  }

  // ------------------------------------------------------------------ the flags themselves

  class DemandGate {
    var wanted: seq<bool>
    var drcAllowed: bool
    var wiiuAllowed: bool

    ghost function View(): Flags
      reads this
    {
      Flags(wanted, drcAllowed, wiiuAllowed)
    }

    constructor (drc: bool, wiiu: bool)
      ensures View() == Flags(seq(STREAM_COUNT, _ => false), drc, wiiu)
    {
      wanted, drcAllowed, wiiuAllowed := seq(STREAM_COUNT, _ => false), drc, wiiu;
    }

    /** One chain's turn; says whether it has just been started and must be announced. */
    method LookAt(slot: nat, count: nat) returns (starts: bool)
      requires slot < STREAM_COUNT == |wanted|
      modifies `wanted
      ensures View() == Look(old(View()), slot, count)
      ensures starts <==> wanted[slot] && !old(wanted[slot])
    {
      var want := count > 0;
      if slot == STREAM_DRC && !drcAllowed {
        want := false;
      }
      if slot == STREAM_WIIU && !wiiuAllowed {
        want := false;
      }
      starts := false;
      if want != wanted[slot] {
        wanted := wanted[slot := want];
        starts := want;
      }
    }

    /** Looks at every chain, each with the count there is when its turn comes. */
    method OnDemandChanged(seen: seq<nat>)
      requires |wanted| == |seen| == STREAM_COUNT
      modifies `wanted
      ensures View() == LookedThrough(old(View()), seen, STREAM_COUNT)
    {
      hide Look;
      for slot := 0 to STREAM_COUNT
        invariant |wanted| == STREAM_COUNT && View() == LookedThrough(old(View()), seen, slot)
      {
        var _ := LookAt(slot, seen[slot]);
      }
    }

    method SetWiiuEnabled(on: bool)
      requires |wanted| == STREAM_COUNT
      modifies `wiiuAllowed, `wanted
      ensures View() == WiiuSet(old(View()), on)
    {
      wiiuAllowed := on;
      if !on {
        wanted := wanted[STREAM_WIIU := false];
      }
    }

    method SetDrcEnabled(on: bool, seen: seq<nat>)
      requires |wanted| == |seen| == STREAM_COUNT
      modifies `drcAllowed, `wanted
      ensures View() == if on == old(drcAllowed) then old(View())
                        else LookedThrough(DrcSet(old(View()), on), seen, STREAM_COUNT)
    {
      if drcAllowed == on {
        return;
      }
      drcAllowed := on;
      if !on {
        wanted := wanted[STREAM_DRC := false];
      }
      OnDemandChanged(seen);
    }
  }

  /** The counts that an undisturbed callback sees, one per turn. */
  function Seen(j: Joint, n: nat, a: seq<Announcement>): (seen: seq<nat>)
    requires JointShape(j) && j.serving == 0 && n <= STREAM_COUNT == |a|
    requires forall k :: 0 <= k < |a| ==> Announces(a[k])
    ensures |seen| == STREAM_COUNT
  {
    seq(STREAM_COUNT, k requires 0 <= k < STREAM_COUNT =>
      if k < n then LookThrough(j, k, a).stream.live[k] else 0)
  }

  /** The loop over the chains is those turns. */
  lemma {:induction false} CallbackIsLooks(j: Joint, n: nat, a: seq<Announcement>)
    requires JointShape(j) && j.serving == 0 && n <= STREAM_COUNT == |a|
    requires forall k :: 0 <= k < |a| ==> Announces(a[k])
    ensures LookThrough(j, n, a).flags == LookedThrough(j.flags, Seen(j, STREAM_COUNT, a), n)
  {
    hide Announced;
    if n > 0 {
      CallbackIsLooks(j, n - 1, a);
    }
  }
}
