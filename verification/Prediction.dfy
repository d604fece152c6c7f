/**
 The video policy: a predictive decoder is never handed a frame whose predecessor was lost, and
 the in-flight allowance never mistakes one healthy frame for a backlog.
 */
module Prediction {
  import opened Bytes
  import opened Wire
  import opened ClientModel

  /** Every frame handed over can be decoded from what was handed over just before it. */
  predicate ChainOk(log: seq<Frame>) {
    forall i :: 0 <= i < |log| && log[i].accepted && !log[i].key ==> i > 0 && log[i - 1].accepted
  }

  predicate LastAccepted(log: seq<Frame>) {
    log != [] && log[|log| - 1].accepted
  }

  /** The flag that parks a client is down only while its decoder is up to date. */
  predicate Chain(f: Feed) {
    ChainOk(f.log) && (!f.waiting ==> LastAccepted(f.log))
  }

  predicate Predictive(c: Seat) {
    c.onOld3ds && PredictiveCodec(c.codec)
  }

  /** In a sound log every accepted frame goes back, without a gap, to an accepted keyframe. */
  lemma {:induction false} Decodable(log: seq<Frame>, i: nat) returns (k: nat)
    requires ChainOk(log) && i < |log| && log[i].accepted
    ensures k <= i && log[k].key
    ensures forall j :: k <= j <= i ==> log[j].accepted
    decreases i
  {
    if log[i].key {
      k := i;
    } else {
      k := Decodable(log, i - 1);
    }
  }

  lemma LogFrame(log: seq<Frame>, x: Frame)
    requires ChainOk(log)
    ensures ChainOk(log + [x]) <==> (x.accepted && !x.key ==> LastAccepted(log))
  {
    var all := log + [x];
    assert all[|log|] == x;
    assert LastAccepted(log) ==> all[|log| - 1].accepted;
    if ChainOk(all) && x.accepted && !x.key {
      assert all[|log| - 1].accepted;
    }
  }

  /** A video frame this client is ready for, with nothing queued before it, whose bytes need a
      larger buffer than there is and than there can be. */
  predicate Starved(c: Seat, f: Feed, m: Message, slot: Option<nat>, filter: AudioFilter, largest: nat, e: Env) {
    && m.kind == MSG_VIDEO && Eligible(c, slot, filter)
    && !Flush(f.out).1 && Flush(f.out).0.tail == []
    && !(Predicted(c, m) && f.waiting && !IsKey(m))
    && !Backlogged(c, m, largest, e)
    && |Wrap(c.isWs, m)| > f.out.cap && !e.grows
  }

  lemma VideoLostExact(c: Seat, f: Feed, m: Message, slot: Option<nat>, filter: AudioFilter, largest: nat, e: Env)
    requires m.kind == MSG_VIDEO
    ensures Deliver(c, f, m, slot, filter, largest, e).1.Lost? <==> Starved(c, f, m, slot, filter, largest, e)
  {
    hide Flush, Wrap, Allowance;
  }

  /**
   One frame offered keeps the chain sound, whatever the backlog does, exactly unless the client was
   up to date and is starved of it: that path forgets to park the client.
   */
  lemma DeliverChainExact(c: Seat, f: Feed, m: Message, slot: Option<nat>, filter: AudioFilter,
                          largest: nat, e: Env)
    requires Predictive(c) && Chain(f)
    ensures var d := Deliver(c, f, m, slot, filter, largest, e);
            !d.1.Dropped? ==>
              (Chain(d.0) <==> !(Starved(c, f, m, slot, filter, largest, e) && !f.waiting))
  {
    hide Flush, Wrap, Allowance, Starved;
    LogFrame(f.log, Frame(IsKey(m), true));
    LogFrame(f.log, Frame(IsKey(m), false));
    if m.kind == MSG_VIDEO {
      VideoLostExact(c, f, m, slot, filter, largest, e);
    } else {
      OnlyVideoStarves(c, f, m, slot, filter, largest, e);
    }
  }

  lemma OnlyVideoStarves(c: Seat, f: Feed, m: Message, slot: Option<nat>, filter: AudioFilter, largest: nat, e: Env)
    requires m.kind != MSG_VIDEO
    ensures !Starved(c, f, m, slot, filter, largest, e)
  {
  }

  /** And a frame missed like that does harm: the very next predicted frame is handed over undecodable. */
  lemma LostFrameHarms(c: Seat, f: Feed, m: Message, largest: nat)
    requires Predictive(c) && c.used && c.done && Slot(c) == STREAM_OLD3DS
    requires ChainOk(f.log) && !f.waiting && !LastAccepted(f.log)
    requires f.out.net == [] && f.out.tail == []
    requires m.kind == MSG_VIDEO && !IsKey(m)
    ensures var d := Deliver(c, f, m, Some(STREAM_OLD3DS), AnyClient, largest, Env(Some(0), true));
            d.1.Accepted? && !ChainOk(d.0.log)
  {
    hide Wrap;
    LogFrame(f.log, Frame(false, true));
  }

  // ------------------------------------------------------------------ the in-flight allowance

  /** The most a socket of this kind may hold before video is skipped. */
  function AllowanceCap(c: Seat): nat {
    if !c.onOld3ds then INFLIGHT_MAX else if PredictiveCodec(c.codec) then 131072 else 65536
  }

  /**
   A socket that holds the previous frame and nothing else never causes the next frame to be
   skipped, exactly as long as that frame as written fits the client's cap -- whatever the sizes
   before it, and however small the next frame is.
   */
  lemma NoSelfInflictedSkip(c: Seat, before: nat, previous: Message, next: Message)
    requires previous.kind == MSG_VIDEO && next.kind == MSG_VIDEO
    requires c.onOld3ds ==> !c.isWs
    ensures var unsent := |Wrap(c.isWs, previous)|;
            var largest := Decayed(Decayed(before, |previous.payload|), |next.payload|);
            !Backlogged(c, next, largest, Env(Some(unsent), true)) <==> unsent <= AllowanceCap(c)
  {
    hide Wrap;
    var l1 := Decayed(before, |previous.payload|);
    assert l1 >= |previous.payload|;
    var l2 := Decayed(l1, |next.payload|);
    assert l2 >= l1 - l1 / 16;
    assert l1 - l1 / 16 >= |previous.payload| - |previous.payload| / 16;
  }
}
