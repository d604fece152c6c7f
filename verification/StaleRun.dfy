/**
 Seven steps from the empty table to a frame that cannot be decoded: the Old 3DS stream is moved to
 pictures and back while a second client is between connecting and greeting.
 */
module StaleRun {
  import opened Bytes
  import opened Wire
  import opened ClientModel
  import opened StreamModel
  import opened Framing
  import opened Broadcasting
  import opened Transport
  import opened Invariant
  import opened Prediction
  import opened Carried
  import opened Scenes

  /** The capability an Old 3DS must declare, and a frame predicted from another. */
  const CAPS: nat := 0x8000
  const PREDICTED: Message := Message(MSG_VIDEO, 0, [7])

  const FIRST: Event := NativeArrives(Old3dsDoor, 1, 0, [20] + [])
  const FIRST_GREETS: Event := NativeBytes(0, Salute(CAPS), 0, true)
  const TO_JPEG: Event := NativeBytes(0, Encode(Wish(CODEC_OLD3DS_JPEG)), 0, true)
  const SECOND: Event := NativeArrives(Old3dsDoor, 2, 0, [20] + [9])
  const TO_MPEG1: Event := NativeBytes(0, Encode(Wish(CODEC_OLD3DS_MPEG1)), 0, true)
  const SECOND_GREETS: Event := NativeBytes(1, Salute(CAPS), 0, true)
  const SHOW: Event := Media(PREDICTED, Some(STREAM_OLD3DS), AnyClient, ENVS)

  /** A greeted Old 3DS client with nothing half-read. */
  predicate Watching(c: Client, codec: byte) {
    c.seat.used && c.seat.done && c.seat.onOld3ds && !c.seat.isWs && !c.seat.onDrc && !c.seat.onWiiu
    && c.seat.codec == codec && c.rx == []
  }

  /** The second client while it has not greeted, seated on pictures. */
  predicate Seated(c: Client) {
    Newcomer(c, [9]) && c.seat == NewcomerSeat(CODEC_OLD3DS_JPEG, Old3dsDoor, 2)
  }

  lemma CapsDeclared()
    ensures Bit(CAPS, 0x8000)
  {
  }

  lemma FirstBegins() returns (s: Stream)
    ensures Run(Initial(false), [FIRST, FIRST_GREETS], s)
    ensures Untold(s) && s.old3dsCodec == CODEC_OLD3DS_MPEG1 && Watching(s.clients[0], CODEC_OLD3DS_MPEG1)
    ensures !s.clients[1].seat.used
  {
    hide Step, Salute;
    var s0 := Initial(false);
    CapsDeclared();
    Arrives(s0, 0, Old3dsDoor, 1, [20] + []);
    var s1 := Step(s0, FIRST);
    var ack := Greets(s1, 0, CAPS, []);
    s := Step(s1, FIRST_GREETS);
    assert Run(s0, [], s0);
    RunSnoc(s0, [], s0, FIRST);
    RunSnoc(s0, [] + [FIRST], s1, FIRST_GREETS);
    assert [] + [FIRST] + [FIRST_GREETS] == [FIRST, FIRST_GREETS];
  }

  /** To pictures, and somebody arrives. */
  lemma SecondArrives(s: Stream) returns (r: Stream)
    requires Untold(s) && s.old3dsCodec == CODEC_OLD3DS_MPEG1 && Watching(s.clients[0], CODEC_OLD3DS_MPEG1)
    requires !s.clients[1].seat.used
    ensures Enabled(s, TO_JPEG) && Enabled(Step(s, TO_JPEG), SECOND) && r == Step(Step(s, TO_JPEG), SECOND)
    ensures Untold(r) && r.old3dsCodec == CODEC_OLD3DS_JPEG && Watching(r.clients[0], CODEC_OLD3DS_JPEG)
    ensures Seated(r.clients[1])
  {
    hide Step;
    Wishes(s, 0, CODEC_OLD3DS_JPEG);
    var s1 := Step(s, TO_JPEG);
    Arrives(s1, 1, Old3dsDoor, 2, [20] + [9]);
    r := Step(s1, SECOND);
  }

  /** And back, before the second client has greeted. */
  lemma SecondGreets(s: Stream) returns (r: Stream)
    requires Untold(s) && s.old3dsCodec == CODEC_OLD3DS_JPEG && Watching(s.clients[0], CODEC_OLD3DS_JPEG)
    requires Seated(s.clients[1])
    ensures Enabled(s, TO_MPEG1) && Enabled(Step(s, TO_MPEG1), SECOND_GREETS)
    ensures r == Step(Step(s, TO_MPEG1), SECOND_GREETS)
    ensures Shape(r) && Watching(r.clients[0], CODEC_OLD3DS_MPEG1) && Watching(r.clients[1], CODEC_OLD3DS_JPEG)
    ensures var f := r.clients[1].feed;
            f.out.net == [9] && f.out.tail == [] && f.out.cap == 0 && f.waiting && f.log == []
  {
    hide Step, Salute;
    CapsDeclared();
    Wishes(s, 0, CODEC_OLD3DS_MPEG1);
    var s1 := Step(s, TO_MPEG1);
    var ack := Greets(s1, 1, CAPS, [9]);
    r := Step(s1, SECOND_GREETS);
  }

  lemma TakesIt(s: Stream)
    requires Shape(s) && Watching(s.clients[1], CODEC_OLD3DS_JPEG)
    requires var f := s.clients[1].feed; f.out.net == [9] && f.out.tail == [] && f.out.cap == 0 && f.log == []
    ensures Enabled(s, SHOW)
    ensures Step(s, SHOW).clients[1].feed.log == [Frame(false, true)]
  {
    hide Broadcast, Encode;
    var c := s.clients[1];
    var w := Encode(PREDICTED);
    BroadcastEach(s, PREDICTED, Some(STREAM_OLD3DS), AnyClient, ENVS, 1);
    assert Flush(c.feed.out) == (c.feed.out, false);
    assert [] + w == w;
    var q := Queue(false, c.feed.out, PREDICTED);
    assert w[..9] == w && w[9..] == [];
    assert q.tail == w && q.net == [9];
    assert Flush(q) == Flush(q.(net := q.net[1..], wire := q.wire + w, tail := []));
    assert [] + [Frame(false, true)] == [Frame(false, true)];
  }

  /**
   A run after which the stream carries a predictive codec, and a greeted client on it that is marked
   as waiting for a keyframe has been handed a predicted frame as its first.
   */
  lemma StaleSeatIsHarmed() returns (m: Stream, r: Stream)
    ensures Run(Initial(false), [FIRST, FIRST_GREETS, TO_JPEG, SECOND, TO_MPEG1, SECOND_GREETS], m)
    ensures Shape(m) && Enabled(m, SHOW) && r == Step(m, SHOW)
    ensures PredictiveCodec(CarriedCodec(m.clients)) && m.clients[1].feed.waiting
    ensures !ChainOk(r.clients[1].feed.log)
  {
    hide Step, Initial, Enabled, Salute, Encode;
    var s0 := Initial(false);
    var s1 := FirstBegins();
    var s2 := SecondArrives(s1);
    m := SecondGreets(s2);
    TakesIt(m);
    r := Step(m, SHOW);
    FirstDecides(m.clients, STREAM_OLD3DS);
    RunSnoc(s0, [FIRST, FIRST_GREETS], s1, TO_JPEG);
    var t1 := Step(s1, TO_JPEG);
    RunSnoc(s0, [FIRST, FIRST_GREETS] + [TO_JPEG], t1, SECOND);
    RunSnoc(s0, [FIRST, FIRST_GREETS] + [TO_JPEG] + [SECOND], s2, TO_MPEG1);
    var t2 := Step(s2, TO_MPEG1);
    RunSnoc(s0, [FIRST, FIRST_GREETS] + [TO_JPEG] + [SECOND] + [TO_MPEG1], t2, SECOND_GREETS);
    assert [FIRST, FIRST_GREETS] + [TO_JPEG] + [SECOND] + [TO_MPEG1] + [SECOND_GREETS]
        == [FIRST, FIRST_GREETS, TO_JPEG, SECOND, TO_MPEG1, SECOND_GREETS];
    assert r.clients[1].feed.log[0] == Frame(false, true);
  }
}
