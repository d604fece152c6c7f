/**
 Comings and goings in numbers: how far a queue gets, who is taken in and who is turned away, who makes
 room, and when a silent client is asked and given up.
 */
module Comings {
  import opened Bytes
  import opened Wire
  import opened ClientModel
  import opened StreamModel

  // ------------------------------------------------------------------ how far a socket lets a writer get

  /** How many bytes a socket takes before it first takes none. */
  function Takes(net: seq<int>): nat {
    if net == [] || net[0] <= 0 then 0 else net[0] + Takes(net[1..])
  }

  /** What it says then: a negative answer means that the peer is gone. */
  function Stops(net: seq<int>): int {
    if net == [] then 0 else if net[0] <= 0 then net[0] else Stops(net[1..])
  }

  function Least(a: nat, b: nat): nat {
    if a < b then a else b
  }

  lemma Further(w: seq<byte>, b: seq<byte>, k: nat, more: nat)
    requires k + more <= |b|
    ensures (w + b[..k]) + b[k..][..more] == w + b[..k + more] && b[k..][more..] == b[k + more..]
  {
  }

  /** The queue after one write of k bytes. */
  function Wrote(o: Out, k: nat): Out
    requires k <= |o.tail| && o.net != []
  {
    o.(net := o.net[1..], wire := o.wire + o.tail[..k], tail := o.tail[k..])
  }

  lemma FlushStarts(o: Out)
    ensures var k := Least(Takes(o.net), |o.tail|);
            if o.tail == [] || o.net == [] || o.net[0] <= 0 then
              k == 0 && Flush(o).0.wire == o.wire && Flush(o).0.tail == o.tail
              && (Flush(o).1 <==> 0 < |o.tail| && Stops(o.net) < 0)
            else
              Flush(o) == Flush(Wrote(o, Least(o.net[0], |o.tail|)))
  {
  }

  lemma TakesOn(o: Out)
    requires o.tail != [] && o.net != [] && o.net[0] > 0
    ensures var k := Least(o.net[0], |o.tail|);
            && k + Least(Takes(o.net[1..]), |o.tail| - k) == Least(Takes(o.net), |o.tail|)
            && (Takes(o.net) < |o.tail| <==> Takes(o.net[1..]) < |o.tail| - k)
            && Stops(o.net) == Stops(o.net[1..])
  {
  }

  /** A queue gets exactly as far as its socket lets it, and says so if the peer is found gone on the way. */
  lemma {:induction false} FlushGetsThatFar(o: Out)
    ensures var k, r := Least(Takes(o.net), |o.tail|), Flush(o);
            && r.0.wire == o.wire + o.tail[..k] && r.0.tail == o.tail[k..]
            && (r.1 <==> Takes(o.net) < |o.tail| && Stops(o.net) < 0)
    decreases |o.tail|
  {
    hide Flush, Takes, Stops;
    FlushStarts(o);
    if o.tail != [] && o.net != [] && o.net[0] > 0 {
      var k := Least(o.net[0], |o.tail|);
      FlushGetsThatFar(Wrote(o, k));
      TakesOn(o);
      Further(o.wire, o.tail, k, Least(Takes(o.net[1..]), |o.tail| - k));
    }
  }

  /** A message sent at once is sent whole exactly if the socket lets it get that far, and in part otherwise. */
  lemma {:induction false} SendGetsThatFar(o: Out, b: seq<byte>)
    ensures var r := SendAll(o, b);
            r.0.wire == o.wire + b[..Least(Takes(o.net), |b|)] && (r.1 <==> Takes(o.net) >= |b|)
    decreases |b|
  {
    if b != [] && o.net != [] && o.net[0] > 0 {
      var k := if o.net[0] < |b| then o.net[0] else |b|;
      var o1 := o.(net := o.net[1..], wire := o.wire + b[..k]);
      SendGetsThatFar(o1, b[k..]);
      var more := Least(Takes(o1.net), |b[k..]|);
      Further(o.wire, b, k, more);
    }
  }

  // ------------------------------------------------------------------ arrivals

  predicate Browser(c: Client) {
    c.seat.used && c.seat.isWs
  }

  lemma {:induction false} BrowsersAre(cs: seq<Client>)
    ensures Browsers(cs) == |set i: nat | i < |cs| && Browser(cs[i])|
  {
    var all := set i: nat | i < |cs| && Browser(cs[i]);
    if cs == [] {
      assert all == {};
    } else {
      var n := |cs| - 1;
      BrowsersAre(cs[..n]);
      var before := set i: nat | i < n && Browser(cs[..n][i]);
      assert all == before + if Browser(cs[n]) then {n} else {};
    }
  }

  /**
   A browser is taken in exactly if an entry is free, fewer than four browsers are there, and the thirty bytes
   of its answer go out; nobody else notices either way.
   */
  lemma AdoptExact(s: Stream, control: bool, now: nat, net: seq<int>)
    requires Shape(s)
    ensures var r := Adopt(s, control, now, net);
            && (r.1 <==>
                  && (exists i :: 0 <= i < 8 && !s.clients[i].seat.used)
                  && |set i: nat | i < 8 && Browser(s.clients[i])| < 4
                  && Takes(net) >= 30)
            && (forall j :: 0 <= j < 8 && s.clients[j].seat.used ==> r.0.clients[j] == s.clients[j])
            && (r.1 ==> exists i :: 0 <= i < 8 && !s.clients[i].seat.used && Browser(r.0.clients[i])
                                    && r.0.clients[i].seat.done && r.0.clients[i].seat.control == control)
  {
    hide SendAll, Ack, TellGroup, Recount, Browsers, Browser;
    BrowsersAre(s.clients);
    var i := FirstFree(s.clients);
    if i < MAX_CLIENTS {
      var ack := Ack(control, 0, PictureWidth(s, STREAM_WEB), PictureHeight(s, STREAM_WEB),
                     CODEC_H264, CODEC_OPUS, AUDIO_RATE);
      var m := Message(MSG_HELLO_ACK, 0, ack);
      SendGetsThatFar(FreshFeed(net).out, Wrap(true, m));
      AnswerIsThirty(m);
      var a := SendNow(true, FreshFeed(net).out, m);
      var t := Told(s, Client(BrowserSeat(control), NO_FEED.(out := a.0), [], [], [], now, 0));
      IsBrowser(t);
      RecountsOnly(Put(s, i, t));
    }
  }

  lemma IsBrowser(c: Client)
    requires c.seat.used && c.seat.isWs
    ensures Browser(c)
  {
  }

  lemma AnswerIsThirty(m: Message)
    requires |m.payload| == 20
    ensures |Wrap(true, m)| == 30
  {
  }

  lemma RecountsOnly(s: Stream)
    ensures Recount(s).clients == s.clients
  {
  }

  /** A console's other connections go, and nobody else. */
  lemma {:induction false} EvictExact(s: Stream, n: nat, peer: nat)
    requires n <= |s.clients|
    ensures forall j :: 0 <= j < |s.clients| ==>
              EvictTo(s, n, peer).clients[j]
              == if j < n && s.clients[j].seat.used && s.clients[j].seat.onWiiu && s.clients[j].seat.peer == peer
                 then NO_CLIENT else s.clients[j]
  {
    hide Counts;
    if n > 0 {
      EvictExact(s, n - 1, peer);
    }
  }

  /** An entry that an arriving console's older connection holds. */
  predicate GivesWay(c: Client, door: Door, peer: nat) {
    door.WiiuDoor? && peer != 0 && c.seat.used && c.seat.onWiiu && c.seat.peer == peer
  }

  predicate Room(c: Client, door: Door, peer: nat) {
    !c.seat.used || GivesWay(c, door, peer)
  }

  lemma GaveWay(s: Stream, door: Door, peer: nat)
    requires Shape(s)
    ensures var s1 := if door.WiiuDoor? && peer != 0 then EvictTo(s, MAX_CLIENTS, peer) else s;
            |s1.clients| == MAX_CLIENTS
            && forall j :: 0 <= j < MAX_CLIENTS ==>
                 s1.clients[j] == (if GivesWay(s.clients[j], door, peer) then NO_CLIENT else s.clients[j])
                 && (s1.clients[j].seat.used <==> !Room(s.clients[j], door, peer))
  {
    hide EvictTo;
    EvictExact(s, MAX_CLIENTS, peer);
  }

  /**
   A native connection takes the first entry that is free once a console's old connections are gone, and is
   turned away if there is none; nobody else is touched.
   */
  lemma AcceptExact(s: Stream, door: Door, peer: nat, now: nat, net: seq<int>, i: nat)
    requires Shape(s) && i < MAX_CLIENTS
    ensures var c, r := s.clients[i], Accept(s, door, peer, now, net).clients[i];
            if Room(c, door, peer) && forall j :: 0 <= j < i ==> !Room(s.clients[j], door, peer) then
              r.seat.used && !r.seat.done && r.seat.peer == peer && r.rx == [] && r.lastSeen == now
              && (r.seat.codec == match door
                                  case MainDoor => 0
                                  case GamepadDoor => 4
                                  case WiiuDoor => 3
                                  case Old3dsDoor => s.old3dsCodec)
            else r == if GivesWay(c, door, peer) then NO_CLIENT else c
  {
    hide EvictTo, GivesWay, Room;
    GaveWay(s, door, peer);
    var s1 := if door.WiiuDoor? && peer != 0 then EvictTo(s, MAX_CLIENTS, peer) else s;
    var n := FirstFree(s1.clients);
    assert n < i ==> Room(s.clients[n], door, peer);
  }

  // ------------------------------------------------------------------ silence

  /** How long ago something was, on a clock of thirty-two bits. */
  lemma SinceInNumbers(t: nat, d: nat)
    requires d < 0x1_0000_0000
    ensures Since((t + d) % 0x1_0000_0000, t % 0x1_0000_0000) == d
  {
    var w := (t + d) / 0x1_0000_0000 - t / 0x1_0000_0000;
    assert w == 0 || w == 1;
  }

  /**
   A client last heard of d milliseconds ago and last asked p ago: given up after ten seconds, asked after three
   if it was not asked in the last three, and otherwise left alone.
   */
  lemma QuietInNumbers(s: Stream, i: nat, t: nat, d: nat, asked: nat, p: nat)
    requires Shape(s) && i < MAX_CLIENTS && s.clients[i].seat.used && d < 0x1_0000_0000 && p < 0x1_0000_0000
    requires t + d == asked + p
    requires s.clients[i].lastSeen == t % 0x1_0000_0000 && s.clients[i].lastProbe == asked % 0x1_0000_0000
    ensures var now := (t + d) % 0x1_0000_0000;
            var c, r := s.clients[i], Quiet(s, i, now).clients[i];
            if d > 10000 then r == NO_CLIENT
            else if d > 3000 && p > 3000 then
              r.seat == c.seat && r.lastSeen == c.lastSeen && r.lastProbe == now
              && r.feed.out.sent
                 == c.feed.out.sent
                    + if Takes(c.feed.out.net) >= |Wrap(c.seat.isWs, Message(17, 0, []))|
                      then [Data(Message(17, 0, []))] else []
            else r == c
  {
    hide Since, Wrap, Counts, SendAll;
    SinceInNumbers(t, d);
    SinceInNumbers(asked, p);
    SendGetsThatFar(s.clients[i].feed.out, Wrap(s.clients[i].seat.isWs, Message(MSG_PING, 0, [])));
  }
}
