/**
 Who is fed what, by how a client came in. A ledger beside the client table notes each connection's
 door and, for the main port, the codec it last asked for with success; the stream a client belongs to
 is read off that ledger alone, and the transport agrees with it after any run.
 */
module Routing {
  import opened Bytes
  import opened Wire
  import opened ClientModel
  import opened StreamModel
  import opened Framing
  import opened Broadcasting
  import opened Transport
  import opened Invariant

  datatype Arrival = ByMain | ByPad | ByConsole | By3ds | ByBrowser

  /** `plays` says that this client's input is taken. */
  datatype Ticket = Ticket(arrival: Arrival, codec: byte, plays: bool)

  /** The stream a connection is fed from. */
  function Home(t: Ticket): nat {
    match t.arrival
    case ByBrowser => 2
    case ByPad => 3
    case ByConsole => 4
    case By3ds => 5
    case ByMain => if t.codec == 3 then 1 else if t.codec == 4 then 3 else 0
  }

  function Through(door: Door): Arrival {
    match door
    case MainDoor => ByMain
    case GamepadDoor => ByPad
    case WiiuDoor => ByConsole
    case Old3dsDoor => By3ds
  }

  /** The codec after one message: VP8 and H.264 are always to be had, the GamePad's if it can be made. */
  function Asked(codec: byte, m: Message, drc: bool): byte {
    if m.kind == MSG_CODEC && |m.payload| == 1
       && (m.payload[0] == 1 || m.payload[0] == 3 || (m.payload[0] == 4 && drc))
    then m.payload[0] else codec
  }

  function AskedInTurn(codec: byte, ms: seq<Message>, drc: bool): byte
    decreases |ms|
  {
    if ms == [] then codec else AskedInTurn(Asked(codec, ms[0], drc), ms[1..], drc)
  }

  // ------------------------------------------------------------------ the ledger

  /** What a client has said since: the messages acted on that were not there before. */
  function SaidSince(a: Client, b: Client): seq<Message> {
    if |a.received| <= |b.received| then b.received[|a.received|..] else []
  }

  /** A ticket after its client was read from: a greeting settles who plays, requests move the codec. */
  function Reread(t: Ticket, a: Client, b: Client, answer: bool, drc: bool): Ticket {
    var t1 := if !a.seat.done && b.seat.done then t.(codec := 3, plays := t.arrival.ByPad? || answer) else t;
    t1.(codec := AskedInTurn(t1.codec, SaidSince(a, b), drc))
  }

  /** One line of the ledger after a step. */
  function Line(s: Stream, e: Event, r: Stream, i: nat, t: Option<Ticket>): Option<Ticket>
    requires i < |s.clients| == |r.clients|
  {
    if !r.clients[i].seat.used then None
    else
      match e
      case BrowserArrives(control, _, _) => if t.None? then Some(Ticket(ByBrowser, 3, control)) else t
      case NativeArrives(door, _, _, _) => if t.None? then Some(Ticket(Through(door), 3, false)) else t
      case NativeBytes(j, _, _, answer) =>
        if i == j && t.Some? then Some(Reread(t.value, s.clients[i], r.clients[i], answer, s.drcAvailable)) else t
      case BrowserBytes(j, _, _, _) =>
        if i == j && t.Some? then Some(Reread(t.value, s.clients[i], r.clients[i], false, s.drcAvailable)) else t
      case _ => t
  }

  function Ledger(s: Stream, e: Event, r: Stream, l: seq<Option<Ticket>>): (m: seq<Option<Ticket>>)
    requires |l| == |s.clients| == |r.clients|
    ensures |m| == |l|
  {
    seq(|l|, i requires 0 <= i < |l| => Line(s, e, r, i, l[i]))
  }

  /** A run with its ledger. */
  predicate Noted(s: Stream, l: seq<Option<Ticket>>, es: seq<Event>, r: Stream, m: seq<Option<Ticket>>)
    requires Shape(s) && |l| == MAX_CLIENTS
    decreases |es|
  {
    if es == [] then r == s && m == l
    else
      && Enabled(s, es[0])
      && var s1 := Step(s, es[0]);
         Noted(s1, Ledger(s, es[0], s1, l), es[1..], r, m)
  }

  function Blank(): (l: seq<Option<Ticket>>)
    ensures |l| == MAX_CLIENTS
  {
    seq(MAX_CLIENTS, _ => None)
  }

  // ------------------------------------------------------------------ the table agrees with it

  predicate Fits(t: Ticket, c: Seat) {
    && c.isWs == t.arrival.ByBrowser?
    && c.onDrc == t.arrival.ByPad?
    && c.onWiiu == t.arrival.ByConsole?
    && c.onOld3ds == t.arrival.By3ds?
    && (c.done ==> c.control == t.plays && (t.arrival.ByMain? ==> c.codec == t.codec))
    && (!c.done ==> !t.arrival.ByBrowser? && (c.codec == 4 <==> t.arrival.ByPad?)
                    && (t.arrival.ByMain? ==> c.codec == 0))
  }

  predicate LineOk(t: Option<Ticket>, c: Client) {
    if c.seat.used then t.Some? && Fits(t.value, c.seat) else t.None?
  }

  predicate LedgerOk(l: seq<Option<Ticket>>, cs: seq<Client>) {
    |l| == |cs| && forall i {:trigger LineOk(l[i], cs[i])} :: 0 <= i < |cs| ==> LineOk(l[i], cs[i])
  }

  /** The same connection, which has said nothing and asked for nothing. */
  predicate Same(a: Client, b: Client) {
    b.seat.used ==>
      && a.seat.used && b.received == a.received && b.seat.done == a.seat.done && b.seat.control == a.seat.control
      && b.seat.isWs == a.seat.isWs && b.seat.onDrc == a.seat.onDrc && b.seat.onWiiu == a.seat.onWiiu
      && b.seat.onOld3ds == a.seat.onOld3ds
      && ((a.seat.done && a.seat.onOld3ds) || b.seat.codec == a.seat.codec)
  }

  predicate AllSame(a: seq<Client>, b: seq<Client>) {
    |a| == |b| && forall i {:trigger Same(a[i], b[i])} :: 0 <= i < |a| ==> Same(a[i], b[i])
  }

  predicate OthersSame(a: seq<Client>, b: seq<Client>, but: nat) {
    |a| == |b| && forall i {:trigger Same(a[i], b[i])} :: 0 <= i < |a| && i != but ==> Same(a[i], b[i])
  }

  lemma SameSelf(c: Client)
    ensures Same(c, c) && Same(c, NO_CLIENT)
  {
  }

  lemma SameTransitive(a: Client, b: Client, c: Client)
    requires Same(a, b) && Same(b, c)
    ensures Same(a, c)
  {
  }

  lemma OthersTransitive(a: seq<Client>, b: seq<Client>, c: seq<Client>, but: nat)
    requires OthersSame(a, b, but) && OthersSame(b, c, but)
    ensures OthersSame(a, c, but)
  {
    hide Same;
    forall i | 0 <= i < |a| && i != but
      ensures Same(a[i], c[i])
    {
      SameTransitive(a[i], b[i], c[i]);
    }
  }

  lemma SameKeepsLine(t: Option<Ticket>, a: Client, b: Client)
    requires LineOk(t, a) && Same(a, b)
    ensures LineOk(if b.seat.used then t else None, b)
  {
  }

  lemma PutSame(s: Stream, i: nat, c: Client)
    requires i < |s.clients|
    ensures OthersSame(s.clients, Put(s, i, c).clients, i) && OthersSame(s.clients, Recount(Put(s, i, c)).clients, i)
    ensures Same(s.clients[i], c) ==> AllSame(s.clients, Put(s, i, c).clients)
  {
    hide Same, Counts;
    forall j | 0 <= j < |s.clients|
      ensures Same(s.clients[j], s.clients[j])
    {
      SameSelf(s.clients[j]);
    }
  }

  lemma DropSame(s: Stream, i: nat)
    requires i < |s.clients|
    ensures AllSame(s.clients, Drop(s, i).clients) && !Drop(s, i).clients[i].seat.used
  {
    hide Same, Counts;
    forall j | 0 <= j < |s.clients|
      ensures Same(s.clients[j], s.clients[j]) && Same(s.clients[j], NO_CLIENT)
    {
      SameSelf(s.clients[j]);
    }
  }

  // ------------------------------------------------------------------ steps that read nothing

  lemma BroadcastSame(s: Stream, m: Message, slot: Option<nat>, filter: AudioFilter, es: seq<Env>)
    requires Shape(s) && |es| == MAX_CLIENTS && (slot.Some? ==> slot.value < STREAM_COUNT)
    ensures AllSame(s.clients, Broadcast(s, m, slot, filter, es).clients)
  {
    hide Broadcast, Deliver, Sized;
    forall i | 0 <= i < MAX_CLIENTS
      ensures Same(s.clients[i], Broadcast(s, m, slot, filter, es).clients[i])
    {
      BroadcastEach(s, m, slot, filter, es, i);
    }
  }

  lemma {:induction false} EvictSame(s: Stream, n: nat, peer: nat)
    requires n <= |s.clients|
    ensures AllSame(s.clients, EvictTo(s, n, peer).clients)
    ensures forall i :: 0 <= i < |s.clients| && s.clients[i].seat.used && !EvictTo(s, n, peer).clients[i].seat.used
              ==> s.clients[i].seat.onWiiu
  {
    hide Same, Drop;
    if n == 0 {
      forall i | 0 <= i < |s.clients|
        ensures Same(s.clients[i], s.clients[i])
      {
        SameSelf(s.clients[i]);
      }
    } else {
      EvictSame(s, n - 1, peer);
      var s1 := EvictTo(s, n - 1, peer);
      DropSame(s1, n - 1);
      DropOthers(s1, n - 1);
      forall i | 0 <= i < |s.clients|
        ensures Same(s.clients[i], Drop(s1, n - 1).clients[i])
      {
        SameTransitive(s.clients[i], s1.clients[i], Drop(s1, n - 1).clients[i]);
      }
      StillConsole(s.clients[n - 1], s1.clients[n - 1]);
    }
  }

  lemma DropOthers(s: Stream, i: nat)
    requires i < |s.clients|
    ensures forall j :: 0 <= j < |s.clients| && j != i ==> Drop(s, i).clients[j] == s.clients[j]
  {
    hide Counts;
  }

  lemma StillConsole(a: Client, b: Client)
    requires Same(a, b)
    ensures b.seat.used ==> b.seat.onWiiu == a.seat.onWiiu
  {
  }

  // ------------------------------------------------------------------ what a client's messages do

  lemma ToldSeat(s: Stream, c: Client)
    requires Shape(s)
    ensures Told(s, c) == c.(feed := Told(s, c).feed)
  {
  }

  lemma SwitchSame(s: Stream, codec: byte)
    requires Shape(s)
    ensures AllSame(s.clients, SwitchTo(AnnouncedCodec(s, codec), MAX_CLIENTS, codec).clients)
  {
    hide Told;
    var s1 := AnnouncedCodec(s, codec);
    forall i | 0 <= i < MAX_CLIENTS
      ensures Same(s.clients[i], SwitchPeer(s1, s.clients[i], codec))
    {
      ToldSeat(s1, Retuned(s.clients[i], codec, PredictiveCodec(codec)));
    }
  }

  /** After one message: the same connection, with one codec request more or less granted. */
  predicate Spoken(a: Client, b: Client, ms: seq<Message>, drc: bool) {
    b.seat.used ==>
      && a.seat.used && b.received == a.received + ms && b.seat.done == a.seat.done
      && b.seat.control == a.seat.control
      && b.seat.isWs == a.seat.isWs && b.seat.onDrc == a.seat.onDrc && b.seat.onWiiu == a.seat.onWiiu
      && b.seat.onOld3ds == a.seat.onOld3ds
      && (!a.seat.onOld3ds ==> b.seat.codec == AskedInTurn(a.seat.codec, ms, drc))
  }

  /** The same connection, with at most its codec moved. */
  predicate Turned(a: Client, b: Client, m: Message, drc: bool) {
    && b.received == a.received && b.seat == a.seat.(codec := b.seat.codec)
    && (!a.seat.onOld3ds ==> b.seat.codec == Asked(a.seat.codec, m, drc))
  }

  lemma DispatchSpoken(s: Stream, i: nat, m: Message)
    requires Shape(s) && i < MAX_CLIENTS && s.clients[i].seat.done
    ensures var r := Dispatch(s, i, m).0;
            && OthersSame(s.clients, r.clients, i) && r.drcAvailable == s.drcAvailable
            && Turned(s.clients[i], r.clients[i], m, s.drcAvailable)
  {
    hide Told, SwitchTo, AnnouncedCodec, OthersSame, Turned, WantsOld3dsCodec, WantsCodec, Put;
    var c := s.clients[i];
    if m.kind != MSG_CODEC {
      NotTurned(s, i, m);
    } else if c.seat.onOld3ds {
      NotTurned(s, i, m);
      if WantsOld3dsCodec(s, m) {
        SwitchTurned(s, i, m);
      }
    } else if WantsCodec(s, c.seat, m) {
      RetunedTurned(s, i, m);
    } else {
      NotTurned(s, i, m);
    }
  }

  lemma NotTurned(s: Stream, i: nat, m: Message)
    requires i < |s.clients|
    requires m.kind != MSG_CODEC || s.clients[i].seat.onOld3ds || !WantsCodec(s, s.clients[i].seat, m)
    ensures OthersSame(s.clients, s.clients, i) && Turned(s.clients[i], s.clients[i], m, s.drcAvailable)
  {
    hide Same;
    StaysSame(s.clients);
  }

  lemma SwitchTurned(s: Stream, i: nat, m: Message)
    requires Shape(s) && i < MAX_CLIENTS && s.clients[i].seat.onOld3ds && WantsOld3dsCodec(s, m)
    ensures var r := SwitchTo(AnnouncedCodec(s, m.payload[0]), MAX_CLIENTS, m.payload[0]);
            && OthersSame(s.clients, r.clients, i) && r.drcAvailable == s.drcAvailable
            && Turned(s.clients[i], r.clients[i], m, s.drcAvailable)
  {
    hide SwitchTo, AnnouncedCodec, OthersSame, AllSame;
    SwitchSame(s, m.payload[0]);
    AllAreOthers(s.clients, SwitchTo(AnnouncedCodec(s, m.payload[0]), MAX_CLIENTS, m.payload[0]).clients, i);
    SwitchSeat(s, m.payload[0], i);
    SwitchDrc(s, m.payload[0]);
  }

  lemma RetunedTurned(s: Stream, i: nat, m: Message)
    requires Shape(s) && i < MAX_CLIENTS && WantsCodec(s, s.clients[i].seat, m) && m.kind == MSG_CODEC
    ensures var c := s.clients[i];
            var r := Put(s, i, Told(s, Retuned(c, m.payload[0], c.feed.waiting)));
            && OthersSame(s.clients, r.clients, i) && r.drcAvailable == s.drcAvailable
            && Turned(s.clients[i], r.clients[i], m, s.drcAvailable)
  {
    hide Told, OthersSame;
    var c := s.clients[i];
    ToldSeat(s, Retuned(c, m.payload[0], c.feed.waiting));
    PutSame(s, i, Told(s, Retuned(c, m.payload[0], c.feed.waiting)));
  }

  lemma AllAreOthers(a: seq<Client>, b: seq<Client>, i: nat)
    requires AllSame(a, b)
    ensures OthersSame(a, b, i)
  {
    hide Same;
  }

  lemma SwitchDrc(s: Stream, codec: byte)
    requires Shape(s)
    ensures SwitchTo(AnnouncedCodec(s, codec), MAX_CLIENTS, codec).drcAvailable == s.drcAvailable
  {
  }

  lemma SwitchSeat(s: Stream, codec: byte, i: nat)
    requires Shape(s) && i < MAX_CLIENTS
    ensures var r := SwitchTo(AnnouncedCodec(s, codec), MAX_CLIENTS, codec).clients[i];
            r.seat == s.clients[i].seat.(codec := r.seat.codec) && r.received == s.clients[i].received
  {
    hide Told;
    ToldSeat(AnnouncedCodec(s, codec), Retuned(s.clients[i], codec, PredictiveCodec(codec)));
  }

  lemma PieceSpoken(s: Stream, i: nat, p: Piece)
    requires Shape(s) && i < MAX_CLIENTS && s.clients[i].seat.done
    requires p.Piece? && HEADER_SIZE <= p.used <= |s.clients[i].rx|
    ensures var r := HandlePiece(s, i, p);
            && OthersSame(s.clients, r.clients, i) && r.drcAvailable == s.drcAvailable
            && r.clients[i].seat.done
            && Spoken(s.clients[i], r.clients[i], [p.message], s.drcAvailable)
  {
    hide Dispatch, Counts, OthersSame, Asked, AskedInTurn;
    DispatchSpoken(s, i, p.message);
    var d := Dispatch(s, i, p.message).0;
    PutSame(d, i, AfterPiece(d.clients[i], p));
    OthersTransitive(s.clients, d.clients, HandlePiece(s, i, p).clients, i);
    AskedOnce(s.clients[i].seat.codec, p.message, s.drcAvailable);
  }

  lemma AskedOnce(codec: byte, m: Message, drc: bool)
    ensures AskedInTurn(codec, [m], drc) == Asked(codec, m, drc)
  {
    assert [m][1..] == [];
  }

  lemma AskedMore(codec: byte, m: Message, ms: seq<Message>, drc: bool)
    ensures AskedInTurn(codec, [m] + ms, drc) == AskedInTurn(Asked(codec, m, drc), ms, drc)
  {
    assert ([m] + ms)[0] == m && ([m] + ms)[1..] == ms;
  }

  lemma SpokenOn(a: Client, b: Client, c: Client, m: Message, ms: seq<Message>, drc: bool)
    requires Spoken(a, b, [m], drc) && Spoken(b, c, ms, drc)
    ensures Spoken(a, c, [m] + ms, drc)
  {
    hide Asked, AskedInTurn;
    AskedOnce(a.seat.codec, m, drc);
    AskedMore(a.seat.codec, m, ms, drc);
    assert (a.received + [m]) + ms == a.received + ([m] + ms);
  }

  lemma SpokenNothing(c: Client, drc: bool)
    ensures Spoken(c, c, [], drc) && Spoken(c, NO_CLIENT, [], drc)
  {
  }

  lemma {:induction false} MessagesSpoken(s: Stream, i: nat, capacity: nat) returns (ms: seq<Message>)
    requires Shape(s) && i < MAX_CLIENTS && HEADER_SIZE <= capacity && s.clients[i].seat.done
    ensures OthersSame(s.clients, HandleMessages(s, i, capacity).clients, i)
    ensures Spoken(s.clients[i], HandleMessages(s, i, capacity).clients[i], ms, s.drcAvailable)
    decreases |s.clients[i].rx|
  {
    hide HandlePiece, Counts, NextPiece, OthersSame, Spoken, Drop;
    var p := NextPiece(s.clients[i].rx, capacity);
    ms := [];
    SpokenNothing(s.clients[i], s.drcAvailable);
    match p {
      case NeedMore => Untouched(s, i);
      case TooBig => DropSpoken(s, i);
      case Piece(_, _) =>
        var s1 := HandlePiece(s, i, p);
        PieceSpoken(s, i, p);
        var more := MessagesSpoken(s1, i, capacity);
        ms := [p.message] + more;
        var r := HandleMessages(s1, i, capacity);
        OthersTransitive(s.clients, s1.clients, r.clients, i);
        SpokenOn(s.clients[i], s1.clients[i], r.clients[i], p.message, more, s.drcAvailable);
    }
  }

  lemma Untouched(s: Stream, i: nat)
    ensures OthersSame(s.clients, s.clients, i)
  {
  }

  lemma DropSpoken(s: Stream, i: nat)
    requires i < |s.clients|
    ensures OthersSame(s.clients, Drop(s, i).clients, i)
    ensures Spoken(s.clients[i], Drop(s, i).clients[i], [], s.drcAvailable)
  {
    hide Same;
    DropSame(s, i);
  }

  // ------------------------------------------------------------------ the greeting

  /** A greeting leaves the connection as it was, loses it, or seats it by its door. */
  predicate SeatedBy(t: Ticket, b: Client, received: seq<Message>, answer: bool) {
    b.seat.used ==>
      b.received == received
      && if b.seat.done then Fits(t.(codec := 3, plays := t.arrival.ByPad? || answer), b.seat) else Fits(t, b.seat)
  }

  lemma HelloSeats(s: Stream, i: nat, answer: bool, t: Ticket)
    requires Inv(s) && i < MAX_CLIENTS && s.clients[i].seat.used && !s.clients[i].seat.done
    requires Fits(t, s.clients[i].seat)
    ensures OthersSame(s.clients, HandleHello(s, i, answer).clients, i)
    ensures SeatedBy(t, HandleHello(s, i, answer).clients[i], s.clients[i].received, answer)
    ensures HandleHello(s, i, answer).drcAvailable == s.drcAvailable
  {
    hide Greet, AckFor, Told, Recount, ParseHello, OthersSame, Bit, Counts, ConsolesDistinct, Browsers;
    var c := s.clients[i];
    assert ClientOk(c);
    Untouched(s, i);
    DropSpoken(s, i);
    DropSame(s, i);
    var h := ParseHello(c.seat.onOld3ds, c.rx);
    if h.HelloAccepted? {
      var seat := Introduced(s.udp, c.seat, h.caps, answer);
      var w := Welcomed(c, h.used, seat, AckFor(s, seat), seat.onOld3ds && PredictiveCodec(s.old3dsCodec));
      ToldSeat(s, w.0);
      PutSame(s, i, Told(s, w.0));
    }
  }

  // ------------------------------------------------------------------ one read

  /** What became of client i's line in the ledger, everybody else being as they were. */
  lemma ReadLine(t: Ticket, a: Client, m: Client, b: Client, ms: seq<Message>, answer: bool, drc: bool)
    requires Fits(t, a.seat) && a.seat.used && m.received == a.received
    requires if a.seat.done then m.seat == a.seat
             else m.seat.done && Fits(t.(codec := 3, plays := t.arrival.ByPad? || answer), m.seat)
    requires Spoken(m, b, ms, drc) && b.seat.used
    ensures Fits(Reread(t, a, b, answer, drc), b.seat)
  {
    hide AskedInTurn;
    assert b.received[|a.received|..] == ms;
  }

  lemma HeardLine(s: Stream, i: nat, data: seq<byte>, now: nat)
    requires i < |s.clients|
    ensures var c := Hearing(s.clients[i], data, now);
            c.seat == s.clients[i].seat && c.received == s.clients[i].received
            && OthersSame(s.clients, Put(s, i, c).clients, i)
  {
    hide Same;
    PutSame(s, i, Hearing(s.clients[i], data, now));
  }

  lemma ReceiveLine(s: Stream, i: nat, data: seq<byte>, now: nat, answer: bool, t: Ticket)
    requires Inv(s) && i < MAX_CLIENTS && s.clients[i].seat.used && Fits(t, s.clients[i].seat)
    ensures var r := Receive(s, i, data, now, answer);
            && OthersSame(s.clients, r.clients, i)
            && (r.clients[i].seat.used ==>
                  Fits(Reread(t, s.clients[i], r.clients[i], answer, s.drcAvailable), r.clients[i].seat))
  {
    hide Counts, HandleHello, HandleMessages, Hearing, OthersSame, Spoken, Fits, Reread, ClientsOk, Browsers,
      ConsolesDistinct;
    var a := s.clients[i];
    var c := Hearing(a, data, now);
    HeardLine(s, i, data, now);
    BufferInv(s, i, data, now);
    var s1 := Put(s, i, c);
    var s2 := if a.seat.done then s1 else HandleHello(s1, i, answer);
    if !a.seat.done {
      HelloSeats(s1, i, answer, t);
      OthersTransitive(s.clients, s1.clients, s2.clients, i);
    }
    var m := s2.clients[i];
    if m.seat.used && m.seat.done {
      var ms := MessagesSpoken(s2, i, RX_CAPACITY);
      var r := HandleMessages(s2, i, RX_CAPACITY);
      OthersTransitive(s.clients, s2.clients, r.clients, i);
      if r.clients[i].seat.used {
        ReadLine(t, a, m, r.clients[i], ms, answer, s.drcAvailable);
      }
    } else if m.seat.used {
      UngreetedLine(t, a, m, answer, s.drcAvailable);
    }
  }

  lemma UngreetedLine(t: Ticket, a: Client, b: Client, answer: bool, drc: bool)
    requires Fits(t, b.seat) && !b.seat.done && b.received == a.received
    ensures Fits(Reread(t, a, b, answer, drc), b.seat)
  {
    assert SaidSince(a, b) == [];
  }

  lemma BrowserLine(s: Stream, i: nat, data: seq<byte>, capacity: nat, now: nat, t: Ticket)
    requires Inv(s) && i < MAX_CLIENTS && s.clients[i].seat.used && s.clients[i].seat.isWs && HEADER_SIZE <= capacity
    requires Fits(t, s.clients[i].seat)
    ensures var r := BrowserData(s, i, data, capacity, now);
            && OthersSame(s.clients, r.clients, i)
            && (r.clients[i].seat.used ==>
                  Fits(Reread(t, s.clients[i], r.clients[i], false, s.drcAvailable), r.clients[i].seat))
  {
    hide Counts, HandleMessages, Hearing, OthersSame, Spoken, Reread, ClientsOk, Browsers, ConsolesDistinct;
    var c := Hearing(s.clients[i], data, now);
    HeardLine(s, i, data, now);
    var s1 := Put(s, i, c);
    var ms := MessagesSpoken(s1, i, capacity);
    var r := HandleMessages(s1, i, capacity);
    OthersTransitive(s.clients, s1.clients, r.clients, i);
    if r.clients[i].seat.used {
      ReadLine(t, s.clients[i], c, r.clients[i], ms, false, s.drcAvailable);
    }
  }

  // ------------------------------------------------------------------ every step

  lemma AllSameLedger(s: Stream, e: Event, r: Stream, l: seq<Option<Ticket>>)
    requires LedgerOk(l, s.clients) && AllSame(s.clients, r.clients)
    requires !e.BrowserArrives? && !e.NativeArrives? && !e.NativeBytes? && !e.BrowserBytes?
    ensures LedgerOk(Ledger(s, e, r, l), r.clients)
  {
    hide LineOk, Same;
    forall i | 0 <= i < |r.clients|
      ensures LineOk(Ledger(s, e, r, l)[i], r.clients[i])
    {
      assert LineOk(l[i], s.clients[i]) && Same(s.clients[i], r.clients[i]);
      SameKeepsLine(l[i], s.clients[i], r.clients[i]);
    }
  }

  lemma ReadLedger(s: Stream, e: Event, r: Stream, l: seq<Option<Ticket>>, i: nat)
    requires LedgerOk(l, s.clients) && OthersSame(s.clients, r.clients, i) && i < |s.clients|
    requires (e.NativeBytes? && e.i == i) || (e.BrowserBytes? && e.i == i)
    requires LineOk(Line(s, e, r, i, l[i]), r.clients[i])
    ensures LedgerOk(Ledger(s, e, r, l), r.clients)
  {
    hide LineOk, Same;
    forall j | 0 <= j < |r.clients|
      ensures LineOk(Ledger(s, e, r, l)[j], r.clients[j])
    {
      if j != i {
        assert LineOk(l[j], s.clients[j]) && Same(s.clients[j], r.clients[j]);
        SameKeepsLine(l[j], s.clients[j], r.clients[j]);
      }
    }
  }

  /** A newcomer in a free entry. */
  lemma FilledLedger(s: Stream, e: Event, s1: Stream, r: Stream, l: seq<Option<Ticket>>, i: nat)
    requires LedgerOk(l, s.clients) && AllSame(s.clients, s1.clients) && i < |s1.clients| == |r.clients|
    requires forall j :: 0 <= j < |r.clients| && j != i ==> r.clients[j] == s1.clients[j]
    requires e.BrowserArrives? || e.NativeArrives?
    requires LineOk(Line(s, e, r, i, l[i]), r.clients[i])
    ensures LedgerOk(Ledger(s, e, r, l), r.clients)
  {
    hide Same;
    forall j | 0 <= j < |r.clients|
      ensures LineOk(Line(s, e, r, j, l[j]), r.clients[j])
    {
      if j != i {
        assert LineOk(l[j], s.clients[j]) && Same(s.clients[j], s1.clients[j]);
        SameKeepsLine(l[j], s.clients[j], s1.clients[j]);
        assert s1.clients[j].seat.used ==> l[j].Some?;
      }
    }
  }

  lemma AdoptLedger(s: Stream, control: bool, now: nat, net: seq<int>, l: seq<Option<Ticket>>)
    requires Shape(s) && LedgerOk(l, s.clients)
    ensures var e := BrowserArrives(control, now, net);
            LedgerOk(Ledger(s, e, Adopt(s, control, now, net).0, l), Adopt(s, control, now, net).0.clients)
  {
    hide SendNow, Ack, Browsers, Counts, Told, FirstFree, LedgerOk, AllSame, Ledger;
    var e := BrowserArrives(control, now, net);
    var r := Adopt(s, control, now, net).0;
    var i := FirstFree(s.clients);
    StaysSame(s.clients);
    if i < MAX_CLIENTS && Browsers(s.clients) < MAX_BROWSERS {
      LineAt(l, s.clients, i);
      var ack := Ack(control, 0, PictureWidth(s, STREAM_WEB), PictureHeight(s, STREAM_WEB),
                     CODEC_H264, CODEC_OPUS, AUDIO_RATE);
      var a := SendNow(true, FreshFeed(net).out, Message(MSG_HELLO_ACK, 0, ack));
      var c := Client(BrowserSeat(control), NO_FEED.(out := a.0), [], [], [], now, 0);
      ToldSeat(s, c);
      FilledLedger(s, e, s, r, l, i);
    } else {
      ArrivedNowhere(s, e, s, l);
    }
  }

  lemma LineAt(l: seq<Option<Ticket>>, cs: seq<Client>, i: nat)
    requires LedgerOk(l, cs) && i < |cs|
    ensures |l| == |cs| && LineOk(l[i], cs[i])
  {
  }

  /** A newcomer who was turned away. */
  lemma ArrivedNowhere(s: Stream, e: Event, r: Stream, l: seq<Option<Ticket>>)
    requires LedgerOk(l, s.clients) && AllSame(s.clients, r.clients)
    requires e.BrowserArrives? || e.NativeArrives?
    ensures LedgerOk(Ledger(s, e, r, l), r.clients)
  {
    hide Same;
    forall j | 0 <= j < |r.clients|
      ensures LineOk(Line(s, e, r, j, l[j]), r.clients[j])
    {
      assert LineOk(l[j], s.clients[j]) && Same(s.clients[j], r.clients[j]);
      SameKeepsLine(l[j], s.clients[j], r.clients[j]);
      assert r.clients[j].seat.used ==> l[j].Some?;
    }
  }

  lemma AcceptLedger(s: Stream, door: Door, peer: nat, now: nat, net: seq<int>, l: seq<Option<Ticket>>)
    requires Inv(s) && LedgerOk(l, s.clients)
    ensures var e := NativeArrives(door, peer, now, net);
            LedgerOk(Ledger(s, e, Accept(s, door, peer, now, net), l), Accept(s, door, peer, now, net).clients)
  {
    hide EvictTo, Counts, ClientsOk, Browsers, ConsolesDistinct, Same, LedgerOk, AllSame, Ledger;
    var e := NativeArrives(door, peer, now, net);
    var evicts := door.WiiuDoor? && peer != 0;
    StaysSame(s.clients);
    EvictSame(s, MAX_CLIENTS, peer);
    var s1 := if evicts then EvictTo(s, MAX_CLIENTS, peer) else s;
    var r := Accept(s, door, peer, now, net);
    var i := FirstFree(s1.clients);
    if i < MAX_CLIENTS {
      LineAt(l, s.clients, i);
      FilledLedger(s, e, s1, r, l, i);
    } else {
      ArrivedNowhere(s, e, s1, l);
    }
  }

  lemma StepLedger(s: Stream, e: Event, l: seq<Option<Ticket>>)
    requires Inv(s) && Enabled(s, e) && LedgerOk(l, s.clients)
    ensures LedgerOk(Ledger(s, e, Step(s, e), l), Step(s, e).clients)
  {
    hide Broadcast, Counts, Browsers, ConsolesDistinct, ClientsOk, Accept, Adopt, Drop, Receive, BrowserData,
      StreamInfo, SharedSettings, AllSame, OthersSame, Ledger, Reread, Fits;
    var r := Step(s, e);
    match e {
      case Media(m, slot, filter, envs) =>
        BroadcastSame(s, m, slot, filter, envs);
        AllSameLedger(s, e, r, l);
      case StreamShape(slot, w, h, envs) =>
        var s1 := s.(groups := s.groups[slot := s.groups[slot].(width := w, height := h, known := true)]);
        BroadcastSame(s1, Message(MSG_STREAM_INFO, 0, StreamInfo(w, h, SlotCodec(s, slot))),
                      Some(slot), AnyClient, envs);
        AllSameLedger(s, e, r, l);
      case Settings(slot, w, h, fps, kbps, mjpeg, envs) =>
        var sh := SharedSettings(w, h, fps, kbps, SlotCodec(s, slot), mjpeg);
        var s1 := s.(groups := s.groups[slot := s.groups[slot].(shared := sh, sharedKnown := true)]);
        BroadcastSame(s1, Message(MSG_SHARED, 0, sh), Some(slot), AnyClient, envs);
        AllSameLedger(s, e, r, l);
      case BrowserArrives(control, now, net) => AdoptLedger(s, control, now, net, l);
      case NativeArrives(door, peer, now, net) => AcceptLedger(s, door, peer, now, net, l);
      case NativeBytes(i, data, now, answer) =>
        assert LineOk(l[i], s.clients[i]);
        ReceiveLine(s, i, data, now, answer, l[i].value);
        ReadLedger(s, e, r, l, i);
      case BrowserBytes(i, data, capacity, now) =>
        assert LineOk(l[i], s.clients[i]);
        BrowserLine(s, i, data, capacity, now, l[i].value);
        ReadLedger(s, e, r, l, i);
      case BrowserPinged(i, payload, now) =>
        PongedSame(s, i, payload, now);
        AllSameLedger(s, e, r, l);
      case Closed(i) =>
        DropSame(s, i);
        AllSameLedger(s, e, r, l);
      case Nothing(i, now) =>
        QuietSame(s, i, now);
        AllSameLedger(s, e, r, l);
      case _ =>
        StaysSame(s.clients);
        AllSameLedger(s, e, r, l);
    }
  }

  lemma StaysSame(cs: seq<Client>)
    ensures AllSame(cs, cs)
  {
  }

  lemma PongedSame(s: Stream, i: nat, payload: seq<byte>, now: nat)
    requires Shape(s) && i < MAX_CLIENTS
    ensures AllSame(s.clients, Ponged(s, i, payload, now).clients)
  {
    hide AnswerPing, AllSame;
    PutSame(s, i, Answered(s.clients[i], payload, now));
  }

  lemma QuietSame(s: Stream, i: nat, now: nat)
    requires Shape(s) && i < MAX_CLIENTS
    ensures AllSame(s.clients, Quiet(s, i, now).clients)
  {
    hide SendNow, Counts, AllSame, Since, Drop;
    DropSame(s, i);
    StaysSame(s.clients);
    PutSame(s, i, Probed(s.clients[i], now));
  }

  lemma {:induction false} RunLedger(s: Stream, l: seq<Option<Ticket>>, es: seq<Event>, r: Stream,
                                     m: seq<Option<Ticket>>)
    requires Inv(s) && LedgerOk(l, s.clients) && Noted(s, l, es, r, m)
    ensures Inv(r) && LedgerOk(m, r.clients)
    decreases |es|
  {
    hide Step, ClientsOk, Browsers, ConsolesDistinct, Counts, LedgerOk, Ledger;
    if es != [] {
      StepInv(s, es[0]);
      StepLedger(s, es[0], l);
      var s1 := Step(s, es[0]);
      LedgerLength(l, s.clients);
      RunLedger(s1, Ledger(s, es[0], s1, l), es[1..], r, m);
    }
  }

  lemma LedgerLength(l: seq<Option<Ticket>>, cs: seq<Client>)
    requires LedgerOk(l, cs)
    ensures |l| == |cs|
  {
  }

  lemma BlankOk(udp: bool)
    ensures LedgerOk(Blank(), Initial(udp).clients)
  {
  }

  // ------------------------------------------------------------------ the theorems

  /** A greeted client whose ticket names this stream. */
  predicate At(t: Option<Ticket>, c: Client, k: nat) {
    t.Some? && c.seat.done && Home(t.value) == k
  }

  lemma AtItsStream(t: Option<Ticket>, c: Client, k: nat)
    requires LineOk(t, c)
    ensures At(t, c, k) <==> OnStream(c.seat, k)
  {
  }

  lemma {:induction false} CountIsSize(cs: seq<Client>, k: nat)
    ensures Count(cs, k) == |set i: nat | i < |cs| && OnStream(cs[i].seat, k)|
  {
    hide OnStream;
    var all := set i: nat | i < |cs| && OnStream(cs[i].seat, k);
    if cs == [] {
      assert all == {};
    } else {
      var n := |cs| - 1;
      CountIsSize(cs[..n], k);
      var before := set i: nat | i < n && OnStream(cs[..n][i].seat, k);
      assert all == before + if OnStream(cs[n].seat, k) then {n} else {};
    }
  }

  /**
   After any run, each count the pipeline reads is the number of greeted clients whose way in, and for
   the main port whose last granted codec request, belongs to that stream.
   */
  lemma CountedByArrival(udp: bool, es: seq<Event>, r: Stream, l: seq<Option<Ticket>>, k: nat)
    requires Noted(Initial(udp), Blank(), es, r, l) && k < STREAM_COUNT
    ensures |l| == |r.clients| && |r.live| == STREAM_COUNT
    ensures r.live[k] == |set i: nat | i < |l| && At(l[i], r.clients[i], k)|
  {
    hide At, OnStream, LineOk, ClientsOk, Browsers, ConsolesDistinct;
    InitialInv(udp);
    BlankOk(udp);
    RunLedger(Initial(udp), Blank(), es, r, l);
    CountIsSize(r.clients, k);
    forall i: nat | i < |l|
      ensures At(l[i], r.clients[i], k) <==> OnStream(r.clients[i].seat, k)
    {
      assert LineOk(l[i], r.clients[i]);
      AtItsStream(l[i], r.clients[i], k);
    }
    assert (set i: nat | i < |l| && At(l[i], r.clients[i], k))
           == (set i: nat | i < |r.clients| && OnStream(r.clients[i].seat, k));
  }

  /** What a video frame makes of a client: one frame more in its history, handed over or not, or it is gone. */
  predicate Fed(c: Client, r: Client, m: Message) {
    r == NO_CLIENT
    || (r.seat == c.seat
        && ((r.feed.log == c.feed.log + [Frame(IsKey(m), true)] && r.feed.out.sent == c.feed.out.sent + [Data(m)])
            || (r.feed.log == c.feed.log + [Frame(IsKey(m), false)] && r.feed.out.sent == c.feed.out.sent)))
  }

  lemma GivenIsFed(c: Client, m: Message, k: nat, recent: nat, e: Env)
    requires m.kind == MSG_VIDEO && OnStream(c.seat, k)
    ensures Fed(c, Given(c, m, Some(k), AnyClient, recent, e), m)
  {
    hide Wrap, Allowance, Flush;
  }

  lemma MissedIsFed(c: Client, m: Message, k: nat)
    requires m.kind == MSG_VIDEO && OnStream(c.seat, k)
    ensures Fed(c, Missed(c, m, Some(k)), m)
  {
  }

  lemma NotMissed(c: Client, m: Message, k: nat)
    requires !OnStream(c.seat, k)
    ensures Missed(c, m, Some(k)) == c
  {
  }

  /**
   After any run, a frame of a stream goes to exactly the greeted clients that belong there by the way they
   came in; nobody else notices it.
   */
  lemma FedByArrival(udp: bool, es: seq<Event>, r: Stream, l: seq<Option<Ticket>>, k: nat, m: Message,
                     envs: seq<Env>, i: nat)
    requires Noted(Initial(udp), Blank(), es, r, l) && k < STREAM_COUNT
    requires m.kind == MSG_VIDEO && |envs| == MAX_CLIENTS && i < MAX_CLIENTS
    ensures |r.clients| == |l| == MAX_CLIENTS && Shape(r)
    ensures var c, r1 := r.clients[i], Step(r, Media(m, Some(k), AnyClient, envs)).clients[i];
            if At(l[i], c, k) then Fed(c, r1, m) else r1 == c
  {
    hide At, OnStream, LineOk, ClientsOk, Browsers, ConsolesDistinct, Counts, Broadcast, Given, Missed, Fed, Sized;
    InitialInv(udp);
    BlankOk(udp);
    RunLedger(Initial(udp), Blank(), es, r, l);
    var c := r.clients[i];
    assert LineOk(l[i], c);
    AtItsStream(l[i], c, k);
    BroadcastEach(r, m, Some(k), AnyClient, envs, i);
    var recent := Sized(r, m, Some(k)).maxFrame;
    if OnStream(c.seat, k) {
      GivenIsFed(c, m, k, recent, envs[i]);
      MissedIsFed(c, m, k);
    } else {
      NotOnStream(c.seat, k);
      IneligibleKept(c, m, Some(k), AnyClient, recent, envs[i]);
      NotMissed(c, m, k);
    }
  }

  lemma NotOnStream(c: Seat, k: nat)
    requires !OnStream(c, k)
    ensures !Eligible(c, Some(k), AnyClient)
  {
  }

  /** After any run, who may play: a pad always, a browser as it was let in, anyone else as greeted. */
  lemma PlaysByArrival(udp: bool, es: seq<Event>, r: Stream, l: seq<Option<Ticket>>, i: nat)
    requires Noted(Initial(udp), Blank(), es, r, l) && i < MAX_CLIENTS
    ensures |r.clients| == |l| == MAX_CLIENTS
    ensures r.clients[i].seat.used <==> l[i].Some?
    ensures l[i].Some? && r.clients[i].seat.done ==> r.clients[i].seat.control == l[i].value.plays
  {
    hide ClientsOk, Browsers, ConsolesDistinct, Counts;
    InitialInv(udp);
    BlankOk(udp);
    RunLedger(Initial(udp), Blank(), es, r, l);
    assert LineOk(l[i], r.clients[i]);
  }

  /**
   An Old 3DS that asks for another of the four codecs its stream can carry takes every greeted Old 3DS with it,
   and parks them all if the pictures depend on each other; any other request changes nothing.
   */
  lemma Old3dsRequest(s: Stream, i: nat, m: Message)
    requires Shape(s) && i < MAX_CLIENTS && s.clients[i].seat.onOld3ds && m.kind == 20
    ensures var r := Dispatch(s, i, m).0;
            if |m.payload| == 1 && m.payload[0] in {6, 7, 9, 10} && m.payload[0] != s.old3dsCodec then
              && r.old3dsCodec == m.payload[0]
              && forall j :: 0 <= j < MAX_CLIENTS ==>
                   var c := s.clients[j];
                   if c.seat.used && c.seat.done && c.seat.onOld3ds then
                     r.clients[j].seat == c.seat.(codec := m.payload[0])
                     && r.clients[j].feed.waiting == (m.payload[0] in {7, 9, 10})
                   else r.clients[j] == c
            else r == s
  {
    hide Told;
    if WantsOld3dsCodec(s, m) {
      var codec := m.payload[0];
      forall j | 0 <= j < MAX_CLIENTS
        ensures var t := Retuned(s.clients[j], codec, PredictiveCodec(codec));
                Told(AnnouncedCodec(s, codec), t) == t.(feed := Told(AnnouncedCodec(s, codec), t).feed)
                && Told(AnnouncedCodec(s, codec), t).feed.waiting == t.feed.waiting
      {
        ToldSeat(AnnouncedCodec(s, codec), Retuned(s.clients[j], codec, PredictiveCodec(codec)));
        ToldStands(AnnouncedCodec(s, codec), Retuned(s.clients[j], codec, PredictiveCodec(codec)));
      }
    }
  }

  lemma ToldStands(s: Stream, c: Client)
    requires Shape(s)
    ensures Told(s, c).feed.waiting == c.feed.waiting
  {
  }
}
