/**
 What the Old 3DS stream really carries. The pipeline encodes for the first greeted client on it; the
 transport parks clients by their own codec. While every seat agrees with the stream the two are the
 same, and every client on the stream is protected. A seat that does not agree is not.
 */
module Carried {
  import opened Bytes
  import opened Wire
  import opened ClientModel
  import opened StreamModel
  import opened Transport
  import opened Invariant
  import opened Prediction
  import opened PredictionRuns

  function CarriedCodec(cs: seq<Client>): byte {
    match StreamCodec(cs, STREAM_OLD3DS)
    case None => CODEC_OLD3DS_JPEG
    case Some(codec) => if Old3dsCodec(codec) then codec else CODEC_OLD3DS_JPEG
  }

  lemma OnOld3ds(c: Client)
    requires ClientOk(c)
    ensures OnStream(c.seat, STREAM_OLD3DS) <==> c.seat.used && c.seat.done && c.seat.onOld3ds
  {
  }

  lemma {:induction false} FirstDecides(cs: seq<Client>, slot: nat)
    requires cs != [] && OnStream(cs[0].seat, slot)
    ensures StreamCodec(cs, slot) == Some(cs[0].seat.codec)
    decreases |cs|
  {
    var n := |cs| - 1;
    if n == 0 {
      assert cs[..0] == [];
    } else {
      FirstDecides(cs[..n], slot);
    }
  }

  /** While all seats agree, what is carried is the codec of every greeted client of the stream. */
  lemma CarriedIsAgreed(s: Stream, i: nat)
    requires Inv(s) && Chains(true, s) && i < MAX_CLIENTS && OnStream(s.clients[i].seat, STREAM_OLD3DS)
    ensures CarriedCodec(s.clients) == s.old3dsCodec == s.clients[i].seat.codec
  {
    hide Counts, Browsers, ConsolesDistinct, FeedOk, Chain, StreamCodec, OnStream;
    var first := StreamCodec(s.clients, STREAM_OLD3DS);
    var k :| 0 <= k < MAX_CLIENTS && OnStream(s.clients[k].seat, STREAM_OLD3DS)
             && s.clients[k].seat.codec == first.value;
    assert ClientOk(s.clients[k]) && ClientOk(s.clients[i]);
    OnOld3ds(s.clients[k]);
    OnOld3ds(s.clients[i]);
    assert ClientChain(true, s.old3dsCodec, s.clients[k]);
    assert ClientChain(true, s.old3dsCodec, s.clients[i]);
  }

  /**
   Over runs that keep all seats in agreement: whenever the stream carries a predictive codec, every
   greeted client on it -- whoever it is carried for -- has been handed decodable frames only.
   */
  lemma CarriedIsDecodable(udp: bool, es: seq<Event>, r: Stream, i: nat, n: nat) returns (k: nat)
    requires Run(Initial(udp), es, r) && GentleRun(true, Initial(udp), es, r) && i < |r.clients|
    requires OnStream(r.clients[i].seat, STREAM_OLD3DS) && PredictiveCodec(CarriedCodec(r.clients))
    requires n < |r.clients[i].feed.log| && r.clients[i].feed.log[n].accepted
    ensures k <= n && r.clients[i].feed.log[k].key
    ensures forall j :: k <= j <= n ==> r.clients[i].feed.log[j].accepted
  {
    hide CarriedCodec, Counts, Browsers, ConsolesDistinct, FeedOk, OnStream;
    InitialInv(udp);
    RunInv(Initial(udp), es, r);
    NobodyAtFirst(udp);
    RunChainsExact(true, Initial(udp), es, r);
    CarriedIsAgreed(r, i);
    assert ClientOk(r.clients[i]);
    OnOld3ds(r.clients[i]);
    assert ClientChain(true, r.old3dsCodec, r.clients[i]);
    k := Decodable(r.clients[i].feed.log, n);
  }

  lemma NobodyAtFirst(udp: bool)
    ensures Chains(true, Initial(udp))
  {
  }

  // ------------------------------------------------------------------ a seat that does not agree

  /** This client is handed this frame, if its peer stays: nothing is queued before it, the socket is
      not behind, and there is room. No flag is looked at. */
  predicate Taken(c: Seat, f: Feed, m: Message, slot: Option<nat>, filter: AudioFilter, largest: nat, e: Env) {
    && Eligible(c, slot, filter)
    && !Flush(f.out).1 && Flush(f.out).0.tail == []
    && !Backlogged(c, m, largest, e)
    && (|Wrap(c.isWs, m)| <= f.out.cap || e.grows)
  }

  /**
   An Old 3DS client seated on a codec that is not predictive, on a stream that carries predicted
   frames: it is handed one it cannot decode exactly when it takes it and did not take the one before,
   parked or not.
   */
  lemma UnparkedSeatExact(c: Seat, f: Feed, m: Message, slot: Option<nat>, filter: AudioFilter, largest: nat,
                          e: Env)
    requires c.onOld3ds && !PredictiveCodec(c.codec) && ChainOk(f.log)
    requires m.kind == MSG_VIDEO && !IsKey(m)
    ensures var d := Deliver(c, f, m, slot, filter, largest, e);
            !d.1.Dropped? ==>
              (ChainOk(d.0.log) <==> LastAccepted(f.log) || !Taken(c, f, m, slot, filter, largest, e))
  {
    hide Flush, Wrap, Allowance;
    LogFrame(f.log, Frame(false, true));
    LogFrame(f.log, Frame(false, false));
  }
}
