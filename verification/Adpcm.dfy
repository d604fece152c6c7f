/**
 The IMA-ADPCM encoder of the Old 3DS audio path, proved against the standard decoder.

 A packet carries the first sample and the step index of each channel, then one four-bit code per
 channel and frame. The decoder below is the standard one: it sees codes and headers only.
 */
module Adpcm {
  import opened Bytes

  const FRAMES: nat := 480
  const MAX_PCM_FRAMES: nat := 320

  const STEPS_LOW: seq<int> := [
    7, 8, 9, 10, 11, 12, 13, 14, 16, 17, 19, 21, 23, 25, 28, 31, 34, 37, 41, 45, 50, 55]
  const STEPS_MID: seq<int> := [
    60, 66, 73, 80, 88, 97, 107, 118, 130, 143, 157, 173, 190, 209, 230, 253, 279, 307, 337, 371, 408, 449]
  const STEPS_HIGH: seq<int> := [
    494, 544, 598, 658, 724, 796, 876, 963, 1060, 1166, 1282, 1411, 1552, 1707, 1878, 2066, 2272, 2499, 2749,
    3024, 3327, 3660]
  const STEPS_TOP: seq<int> := [
    4026, 4428, 4871, 5358, 5894, 6484, 7132, 7845, 8630, 9493, 10442, 11487, 12635, 13899, 15289, 16818, 18500,
    20350, 22385, 24623, 27086, 29794, 32767]

  /** The standard table of 89 step sizes. */
  const STEPS: seq<int> := STEPS_LOW + STEPS_MID + STEPS_HIGH + STEPS_TOP

  const ADJUST: seq<int> := [-1, -1, -1, -1, 2, 4, 6, 8]

  datatype Predictor = Predictor(value: int, index: int)

  predicate Sample(x: int) {
    -32768 <= x <= 32767
  }

  predicate Ok(p: Predictor) {
    Sample(p.value) && 0 <= p.index <= 88
  }

  function Limit(x: int, lo: int, hi: int): int {
    if x < lo then lo else if x > hi then hi else x
  }

  lemma StepRange(i: int)
    requires 0 <= i <= 88
    ensures |STEPS| == 89 && 7 <= STEPS[i] <= 32767 && STEPS[88] == 32767
  {
  }

  function StepOf(p: Predictor): (s: int)
    requires Ok(p)
    ensures 7 <= s <= 32767 && (p.index == 88 ==> s == 32767)
  {
    StepRange(p.index);
    STEPS[p.index]
  }

  // ------------------------------------------------------------------ the decoder

  /** How far a code moves the predictor, without its sign. */
  function Delta(code: nat, step: int): (d: int)
    requires step >= 0
    ensures 0 <= d
  {
    step / 8 + (if code / 4 % 2 == 1 then step else 0) + (if code / 2 % 2 == 1 then step / 2 else 0)
    + (if code % 2 == 1 then step / 4 else 0)
  }

  function Decode(code: nat, p: Predictor): (r: Predictor)
    requires code < 16 && Ok(p)
    ensures Ok(r)
  {
    var d := Delta(code, StepOf(p));
    Predictor(Limit(if code >= 8 then p.value - d else p.value + d, -32768, 32767),
              Limit(p.index + ADJUST[code % 8], 0, 88))
  }

  /** The predictors after each of a sequence of codes. */
  function DecodeAll(codes: seq<nat>, p: Predictor): (r: seq<Predictor>)
    requires Ok(p) && forall i :: 0 <= i < |codes| ==> codes[i] < 16
    ensures |r| == |codes| && forall i :: 0 <= i < |r| ==> Ok(r[i])
  {
    if codes == [] then [] else [Decode(codes[0], p)] + DecodeAll(codes[1..], Decode(codes[0], p))
  }

  // ------------------------------------------------------------------ the encoder

  /** The three magnitude bits for a difference: a greedy fit of step, half a step, a quarter. */
  function Magnitude(d: nat, step: nat): (c: nat)
    ensures c < 8
  {
    var b4 := d >= step;
    var d1 := if b4 then d - step else d;
    var b2 := d1 >= step / 2;
    var d2 := if b2 then d1 - step / 2 else d1;
    (if b4 then 4 else 0) + (if b2 then 2 else 0) + (if d2 >= step / 4 then 1 else 0)
  }

  function Distance(x: int, p: Predictor): nat {
    if x < p.value then p.value - x else x - p.value
  }

  function Code(x: int, p: Predictor): (c: nat)
    requires Ok(p)
    ensures c < 16
  {
    (if x < p.value then 8 else 0) + Magnitude(Distance(x, p), StepOf(p))
  }

  lemma CodeParts(x: int, p: Predictor)
    requires Ok(p)
    ensures var c := Code(x, p);
            var m := Magnitude(Distance(x, p), StepOf(p));
            (c >= 8 <==> x < p.value) && c % 8 == m && Delta(c, StepOf(p)) == Delta(m, StepOf(p))
  {
    hide STEPS;
    var m := Magnitude(Distance(x, p), StepOf(p));
    assert (8 + m) / 4 % 2 == m / 4 % 2 && (8 + m) / 2 % 2 == m / 2 % 2 && (8 + m) % 2 == m % 2;
  }

  method Quantize(distance: nat, step: nat) returns (bits: nat, delta: nat)
    requires step >= 7
    ensures bits == Magnitude(distance, step) && delta == Delta(bits, step)
  {
    var difference := distance;
    bits, delta := 0, step / 8;
    if difference >= step {
      bits := bits + 4;
      difference := difference - step;
      delta := delta + step;
    }
    if difference >= step / 2 {
      bits := bits + 2;
      difference := difference - step / 2;
      delta := delta + step / 2;
    }
    if difference >= step / 4 {
      bits := bits + 1;
      delta := delta + step / 4;
    }
  }

  /** Encodes one sample, carrying the predictor the way the decoder will. */
  method EncodeNibble(sample: int, predictor: int, index: int)
    returns (code: nat, predictor': int, index': int)
    requires Sample(sample) && Ok(Predictor(predictor, index))
    ensures code == Code(sample, Predictor(predictor, index))
    ensures Predictor(predictor', index') == Decode(code, Predictor(predictor, index))
  {
    hide STEPS, Magnitude, Delta;
    var p := Predictor(predictor, index);
    var difference := sample - predictor;
    code := 0;
    if difference < 0 {
      code := 8;
      difference := -difference;
    }
    var bits, delta := Quantize(difference, StepOf(p));
    code := code + bits;
    CodeParts(sample, p);
    predictor' := if code >= 8 then predictor - delta else predictor + delta;
    if predictor' < -32768 {
      predictor' := -32768;
    }
    if predictor' > 32767 {
      predictor' := 32767;
    }
    index' := index + ADJUST[code % 8];
    if index' < 0 {
      index' := 0;
    }
    if index' > 88 {
      index' := 88;
    }
  }

  // ------------------------------------------------------------------ how good the fit is

  predicate Overloaded(x: int, p: Predictor)
    requires Ok(p)
  {
    Distance(x, p) >= 2 * StepOf(p)
  }

  /** Within two steps, what is left uncovered of a difference is about an eighth of a step. */
  lemma MagnitudeFits(d: nat, step: nat)
    requires 7 <= step
    ensures var m := Delta(Magnitude(d, step), step);
            if d < 2 * step then -(step / 8) - 2 <= m - d <= step / 8
            else Magnitude(d, step) == 7 && 0 < m < d
  {
    var c := Magnitude(d, step);
    var b4 := d >= step;
    var d1 := if b4 then d - step else d;
    var b2 := d1 >= step / 2;
    var d2 := if b2 then d1 - step / 2 else d1;
    assert c / 4 % 2 == (if b4 then 1 else 0);
    assert c / 2 % 2 == (if b2 then 1 else 0);
    assert c % 2 == (if d2 >= step / 4 then 1 else 0);
  }

  /**
   One coded sample: the predictor lands within an eighth of a step (and two) of the sample, or, if
   the sample was two steps away or more, strictly closer than it was and with a larger step next.
   */
  lemma ErrorBound(x: int, p: Predictor)
    requires Ok(p) && Sample(x)
    ensures var r := Decode(Code(x, p), p);
            && (!Overloaded(x, p) ==> Distance(x, r) <= StepOf(p) / 8 + 2)
            && (Overloaded(x, p) ==> Distance(x, r) < Distance(x, p) && r.index == Limit(p.index + 8, 0, 88))
  {
    hide Magnitude, Delta;
    CodeParts(x, p);
    MagnitudeFits(Distance(x, p), StepOf(p));
  }

  /** The predictor after n samples of the same value. */
  function Settle(x: int, p: Predictor, n: nat): (r: Predictor)
    requires Ok(p)
    ensures Ok(r)
  {
    if n == 0 then p
    else
      var q := Settle(x, p, n - 1);
      Decode(Code(x, q), q)
  }

  lemma {:induction false} OverloadClimbs(x: int, p: Predictor, n: nat)
    requires Ok(p) && Sample(x)
    requires forall k :: 0 <= k < n ==> Overloaded(x, Settle(x, p, k))
    ensures Settle(x, p, n).index >= Limit(8 * n, 0, 88)
    ensures Distance(x, Settle(x, p, n)) + n <= Distance(x, p)
  {
    hide Code, Decode, Overloaded;
    if n > 0 {
      OverloadClimbs(x, p, n - 1);
      ErrorBound(x, Settle(x, p, n - 1));
    }
  }

  /** A constant input is never more than eleven samples in a row out of reach. */
  lemma OverloadEnds(x: int, p: Predictor)
    requires Ok(p) && Sample(x)
    ensures exists k :: 0 <= k <= 11 && !Overloaded(x, Settle(x, p, k))
  {
    hide Settle;
    if forall k :: 0 <= k < 11 ==> Overloaded(x, Settle(x, p, k)) {
      OverloadClimbs(x, p, 11);
      assert Distance(x, p) <= 65535;
      assert !Overloaded(x, Settle(x, p, 11));
    }
  }

  // ------------------------------------------------------------------ one channel of a packet

  predicate Samples(xs: seq<int>) {
    forall i :: 0 <= i < |xs| ==> Sample(xs[i])
  }

  /** The codes of a run of samples, each fitted from where the last one left the decoder. */
  function EncodeAll(xs: seq<int>, p: Predictor): (codes: seq<nat>)
    requires Ok(p)
    ensures |codes| == |xs| && forall i :: 0 <= i < |codes| ==> codes[i] < 16
  {
    if xs == [] then [] else [Code(xs[0], p)] + EncodeAll(xs[1..], Decode(Code(xs[0], p), p))
  }

  /** Where the decoder stands after a run of codes. */
  function Final(codes: seq<nat>, p: Predictor): (r: Predictor)
    requires Ok(p) && forall i :: 0 <= i < |codes| ==> codes[i] < 16
    ensures Ok(r)
  {
    if codes == [] then p else DecodeAll(codes, p)[|codes| - 1]
  }

  lemma {:induction false} EncodeAllSnoc(xs: seq<int>, x: int, p: Predictor)
    requires Ok(p)
    ensures var q := Final(EncodeAll(xs, p), p);
            && EncodeAll(xs + [x], p) == EncodeAll(xs, p) + [Code(x, q)]
            && Final(EncodeAll(xs + [x], p), p) == Decode(Code(x, q), q)
    decreases |xs|
  {
    hide Code, Decode;
    if xs == [] {
      assert [x][1..] == [];
    } else {
      var p1 := Decode(Code(xs[0], p), p);
      assert (xs + [x])[1..] == xs[1..] + [x];
      EncodeAllSnoc(xs[1..], x, p1);
      FinalCons(Code(xs[0], p), EncodeAll(xs[1..], p1), p);
      FinalCons(Code(xs[0], p), EncodeAll(xs[1..] + [x], p1), p);
    }
  }

  lemma FinalCons(c: nat, codes: seq<nat>, p: Predictor)
    requires Ok(p) && c < 16 && forall i :: 0 <= i < |codes| ==> codes[i] < 16
    ensures Final([c] + codes, p) == Final(codes, Decode(c, p))
  {
    hide Decode;
    assert ([c] + codes)[1..] == codes;
  }

  /**
   Every sample of a channel is heard within an eighth of the step in force (and two), except while
   the encoder is catching up with a jump of two steps or more.
   */
  lemma {:induction false} ChannelError(xs: seq<int>, p: Predictor, i: nat)
    requires Ok(p) && Samples(xs) && i < |xs|
    ensures var heard := DecodeAll(EncodeAll(xs, p), p);
            var q := if i == 0 then p else heard[i - 1];
            !Overloaded(xs[i], q) ==> Distance(xs[i], heard[i]) <= StepOf(q) / 8 + 2
    decreases |xs|
  {
    hide Code, Decode, Overloaded, StepOf;
    var p1 := Decode(Code(xs[0], p), p);
    var codes := EncodeAll(xs, p);
    assert codes[1..] == EncodeAll(xs[1..], p1);
    if i == 0 {
      ErrorBound(xs[0], p);
    } else {
      ChannelError(xs[1..], p1, i - 1);
    }
  }

  // ------------------------------------------------------------------ packets

  /** One datagram: everything its decoder is given. */
  datatype Packet = Packet(valueLeft: int, valueRight: int, indexLeft: int, indexRight: int, data: seq<byte>)

  function LeftCodes(data: seq<byte>): (codes: seq<nat>)
    ensures |codes| == |data| && forall i :: 0 <= i < |codes| ==> codes[i] < 16
  {
    seq(|data|, i requires 0 <= i < |data| => data[i] as int % 16)
  }

  function RightCodes(data: seq<byte>): (codes: seq<nat>)
    ensures |codes| == |data| && forall i :: 0 <= i < |codes| ==> codes[i] < 16
  {
    seq(|data|, i requires 0 <= i < |data| => data[i] as int / 16)
  }

  predicate Playable(k: Packet) {
    Ok(Predictor(k.valueLeft, k.indexLeft)) && Ok(Predictor(k.valueRight, k.indexRight))
  }

  /** What a decoder makes of a packet on its own: where each channel stands after every frame but the first. */
  function HeardLeft(k: Packet): seq<Predictor>
    requires Playable(k)
  {
    DecodeAll(LeftCodes(k.data), Predictor(k.valueLeft, k.indexLeft))
  }

  function HeardRight(k: Packet): seq<Predictor>
    requires Playable(k)
  {
    DecodeAll(RightCodes(k.data), Predictor(k.valueRight, k.indexRight))
  }

  /** One channel of an interleaved stereo buffer. */
  function Channel(pcm: seq<int>, offset: nat): (xs: seq<int>)
    requires offset < 2 && |pcm| % 2 == 0
    ensures |xs| == |pcm| / 2
  {
    seq(|pcm| / 2, i requires 0 <= i < |pcm| / 2 => pcm[2 * i + offset])
  }

  /** The packet for a buffer of stereo frames whose decoder is at these step indices. */
  predicate Encodes(k: Packet, pcm: seq<int>, indexLeft: int, indexRight: int)
    requires |pcm| == 2 * FRAMES && Samples(pcm) && 0 <= indexLeft <= 88 && 0 <= indexRight <= 88
  {
    && k.valueLeft == pcm[0] && k.valueRight == pcm[1]
    && k.indexLeft == indexLeft && k.indexRight == indexRight
    && |k.data| == FRAMES - 1
    && LeftCodes(k.data) == EncodeAll(Channel(pcm, 0)[1..], Predictor(pcm[0], indexLeft))
    && RightCodes(k.data) == EncodeAll(Channel(pcm, 1)[1..], Predictor(pcm[1], indexRight))
  }

  /** Two four-bit codes in one byte, as the packet carries them. */
  function Pack(left: nat, right: nat): (b: byte)
    requires left < 16 && right < 16
    ensures b as int % 16 == left && b as int / 16 == right
  {
    left + 16 * right
  }

  lemma Packed(data: seq<byte>, left: nat, right: nat)
    requires left < 16 && right < 16
    ensures LeftCodes(data + [Pack(left, right)]) == LeftCodes(data) + [left]
    ensures RightCodes(data + [Pack(left, right)]) == RightCodes(data) + [right]
  {
  }

  /** The arithmetic mean of two samples, truncated toward zero as C divides. */
  function Mean(a: int, b: int): int {
    if a + b >= 0 then (a + b) / 2 else -((-(a + b)) / 2)
  }

  lemma MeanIsSample(a: int, b: int)
    requires Sample(a) && Sample(b)
    ensures Sample(Mean(a, b))
    ensures 2 * Mean(a, b) - 1 <= a + b <= 2 * Mean(a, b) + 1
    ensures if a + b >= 0 then 2 * Mean(a, b) <= a + b else 2 * Mean(a, b) >= a + b
  {
  }

  /** Block b of everything gathered. */
  predicate HasBlock(gathered: seq<int>, b: nat) {
    2 * FRAMES * (b + 1) <= |gathered|
  }

  function Block(gathered: seq<int>, b: nat): (pcm: seq<int>)
    requires HasBlock(gathered, b)
    ensures |pcm| == 2 * FRAMES
  {
    gathered[2 * FRAMES * b..2 * FRAMES * (b + 1)]
  }

  /** Each packet sent encodes one whole block of what was gathered, each a later one than the last. */
  predicate History(gathered: seq<int>, packets: seq<Packet>, blocks: seq<nat>) {
    && |packets| == |blocks|
    && (forall i :: 0 <= i < |blocks| ==> HasBlock(gathered, blocks[i]))
    && (forall i, j :: 0 <= i < j < |blocks| ==> blocks[i] < blocks[j])
    && (forall i :: 0 <= i < |packets| ==>
          Samples(Block(gathered, blocks[i])) && Playable(packets[i])
          && Encodes(packets[i], Block(gathered, blocks[i]), packets[i].indexLeft, packets[i].indexRight))
  }

  function EndsLeft(k: Packet): int
    requires Playable(k)
  {
    Final(LeftCodes(k.data), Predictor(k.valueLeft, k.indexLeft)).index
  }

  function EndsRight(k: Packet): int
    requires Playable(k)
  {
    Final(RightCodes(k.data), Predictor(k.valueRight, k.indexRight)).index
  }

  /** A decoder of k finishes at these step indices. */
  predicate EndsAt(k: Packet, indexLeft: int, indexRight: int) {
    Playable(k) && EndsLeft(k) == indexLeft && EndsRight(k) == indexRight
  }

  /** Each packet's header carries the step indices at which a decoder of the last one finished. */
  predicate Chained(packets: seq<Packet>, indexLeft: int, indexRight: int) {
    && (packets != [] ==> EndsAt(packets[|packets| - 1], indexLeft, indexRight))
    && (forall i :: 0 < i < |packets| ==> EndsAt(packets[i - 1], packets[i].indexLeft, packets[i].indexRight))
  }

  /**
   What a listener hears of a packet alone: the first sample of each channel exactly, and every
   later one within an eighth of the step in force (and two) unless the encoder was overloaded.
   */
  lemma PacketFidelity(k: Packet, pcm: seq<int>, i: nat)
    requires |pcm| == 2 * FRAMES && Samples(pcm) && Playable(k)
    requires Encodes(k, pcm, k.indexLeft, k.indexRight) && 1 <= i < FRAMES
    ensures k.valueLeft == pcm[0] && k.valueRight == pcm[1]
    ensures |HeardLeft(k)| == |HeardRight(k)| == FRAMES - 1
    ensures var q := if i == 1 then Predictor(k.valueLeft, k.indexLeft) else HeardLeft(k)[i - 2];
            !Overloaded(pcm[2 * i], q) ==> Distance(pcm[2 * i], HeardLeft(k)[i - 1]) <= StepOf(q) / 8 + 2
    ensures var q := if i == 1 then Predictor(k.valueRight, k.indexRight) else HeardRight(k)[i - 2];
            !Overloaded(pcm[2 * i + 1], q) ==> Distance(pcm[2 * i + 1], HeardRight(k)[i - 1]) <= StepOf(q) / 8 + 2
  {
    hide Overloaded, StepOf, LeftCodes, RightCodes;
    var xs, ys := Channel(pcm, 0), Channel(pcm, 1);
    assert Samples(xs[1..]) && Samples(ys[1..]);
    assert xs[1..][i - 1] == pcm[2 * i] && ys[1..][i - 1] == pcm[2 * i + 1];
    ChannelError(xs[1..], Predictor(pcm[0], k.indexLeft), i - 1);
    ChannelError(ys[1..], Predictor(pcm[1], k.indexRight), i - 1);
  }

  /** The encoder's state between calls: half a block of samples and a step index per channel. */
  class AdpcmSender {
    const pcm: array<int>
    var frames: nat
    var indexLeft: int
    var indexRight: int
    var sequence: nat

    // Every stereo sample ever gathered, and every packet sent with the block it was made of.
    ghost var gathered: seq<int>
    ghost var packets: seq<Packet>
    ghost var blocks: seq<nat>

    ghost predicate Valid()
      reads this, pcm
    {
      && pcm.Length == 2 * FRAMES && frames < FRAMES
      && 0 <= indexLeft <= 88 && 0 <= indexRight <= 88
      && Samples(gathered)
      && |gathered| % (2 * FRAMES) == 2 * frames
      && gathered[|gathered| - 2 * frames..] == pcm[..2 * frames]
      && History(gathered, packets, blocks)
      && Chained(packets, indexLeft, indexRight)
    }

    constructor ()
      ensures Valid() && fresh(pcm) && gathered == [] && packets == []
    {
      pcm := new int[2 * FRAMES](_ => 0);
      frames, indexLeft, indexRight, sequence := 0, 0, 0, 0;
      gathered, packets, blocks := [], [], [];
    }

    /** Encodes a full buffer and sends it, if anybody is listening. */
    method SendBlock(listeners: bool) returns (sent: bool, k: Packet)
      requires pcm.Length == 2 * FRAMES && Samples(pcm[..])
      requires 0 <= indexLeft <= 88 && 0 <= indexRight <= 88
      modifies `indexLeft, `indexRight, `sequence, `packets
      ensures 0 <= indexLeft <= 88 && 0 <= indexRight <= 88
      ensures sent == listeners
      ensures !sent ==> indexLeft == old(indexLeft) && indexRight == old(indexRight)
                        && sequence == old(sequence) && packets == old(packets)
      ensures sent ==> packets == old(packets) + [k] && sequence == (old(sequence) + 1) % 0x1_0000_0000
      ensures sent ==> Encodes(k, pcm[..], old(indexLeft), old(indexRight)) && Playable(k)
      ensures sent ==> indexLeft == Final(LeftCodes(k.data), Predictor(k.valueLeft, k.indexLeft)).index
      ensures sent ==> indexRight == Final(RightCodes(k.data), Predictor(k.valueRight, k.indexRight)).index
    {
      sent := listeners;
      k := Packet(0, 0, 0, 0, []);
      if !listeners {
        return;
      }
      sequence := (sequence + 1) % 0x1_0000_0000;
      var data: seq<byte>, leftIndex, rightIndex := EncodeFrames();
      k := Packet(pcm[0], pcm[1], indexLeft, indexRight, data);
      indexLeft, indexRight := leftIndex, rightIndex;
      packets := packets + [k];
    }

    /** A full buffer is encoded, sent if anybody is listening, and emptied. */
    method FinishBlock(listeners: bool)
      requires frames == FRAMES && pcm.Length == 2 * FRAMES
      requires 0 <= indexLeft <= 88 && 0 <= indexRight <= 88
      requires Samples(gathered) && |gathered| >= 2 * FRAMES && |gathered| % (2 * FRAMES) == 0
      requires gathered[|gathered| - 2 * FRAMES..] == pcm[..]
      requires History(gathered, packets, blocks) && Chained(packets, indexLeft, indexRight)
      requires forall i :: 0 <= i < |blocks| ==> 2 * FRAMES * (blocks[i] + 1) < |gathered|
      modifies this
      ensures Valid() && gathered == old(gathered)
      ensures if listeners then old(packets) < packets && |packets| == |old(packets)| + 1
              else packets == old(packets)
    {
      hide Encodes, Playable, EndsLeft, EndsRight, History, Chained;
      ghost var b := |gathered| / (2 * FRAMES) - 1;
      assert pcm[..] == Block(gathered, b);
      ghost var lastLeft, lastRight, sentBefore := indexLeft, indexRight, packets;
      SamplesOf(gathered, pcm[..]);
      var sent, k := SendBlock(listeners);
      frames := 0;
      if sent {
        HeaderIndices(k, pcm[..], lastLeft, lastRight);
        HistoryAppend(gathered, sentBefore, blocks, k, b);
        ChainedAppend(sentBefore, lastLeft, lastRight, k);
        EndsHere(k);
        blocks := blocks + [b];
      }
    }

    /** Puts one averaged stereo frame in the buffer, which has room for it. */
    method Store(left: int, right: int)
      requires Valid() && Sample(left) && Sample(right)
      modifies `frames, `gathered, pcm
      ensures frames == old(frames) + 1 && gathered == old(gathered) + [left, right]
      ensures Samples(gathered) && gathered[|gathered| - 2 * frames..] == pcm[..2 * frames]
      ensures |gathered| % (2 * FRAMES) == (if frames == FRAMES then 0 else 2 * frames)
      ensures History(gathered, packets, blocks)
      ensures forall i :: 0 <= i < |blocks| ==> 2 * FRAMES * (blocks[i] + 1) < |gathered|
    {
      hide History, Chained, Samples;
      NextFrame(|gathered|, frames);
      BlocksBefore(gathered, packets, blocks);
      HistoryGrows(gathered, packets, blocks, [left, right]);
      SuffixGrows(gathered, pcm[..2 * frames], left, right);
      SamplesGrow(gathered, left, right);
      WriteFrame(left, right);
      frames := frames + 1;
      gathered := gathered + [left, right];
    }

    method WriteFrame(left: int, right: int)
      requires pcm.Length == 2 * FRAMES && frames < FRAMES
      modifies pcm
      ensures pcm[..2 * (frames + 1)] == old(pcm[..2 * frames]) + [left, right]
    {
      pcm[2 * frames], pcm[2 * frames + 1] := left, right;
    }

    /** Adds one averaged stereo frame to the buffer; a full buffer is encoded and emptied. */
    method Gather(left: int, right: int, listeners: bool)
      requires Valid() && Sample(left) && Sample(right)
      modifies this, pcm
      ensures Valid() && gathered == old(gathered) + [left, right]
      ensures old(packets) <= packets
      ensures |packets| == |old(packets)| + if listeners && |gathered| % (2 * FRAMES) == 0 then 1 else 0
    {
      hide Sample, Samples, Chained, History;
      Store(left, right);
      if frames == FRAMES {
        assert pcm[..2 * FRAMES] == pcm[..];
        FinishBlock(listeners);
      }
    }

    /** The 48 kHz capture, halved by averaging neighbours and gathered into blocks. */
    method SendPcm(samples: seq<int>, listeners: bool)
      requires Valid() && Samples(samples) && |samples| % 2 == 0
      modifies this, pcm
      ensures Valid()
      ensures gathered == old(gathered) + if 0 < |samples| / 2 <= MAX_PCM_FRAMES then Halved(samples) else []
      ensures old(packets) <= packets
    {
      hide Valid, Halved, Mean;
      var n := |samples| / 2;
      if n == 0 || n > MAX_PCM_FRAMES {
        return;
      }
      var input := 0;
      HalvedNothing();
      assert samples[..0] == [] && gathered + [] == gathered;
      while input + 1 < n
        invariant Valid() && input % 2 == 0 && input <= n
        invariant gathered == old(gathered) + Halved(samples[..2 * input])
        invariant old(packets) <= packets
        decreases n - input
      {
        var a := Mean(samples[2 * input], samples[2 * input + 2]);
        var b := Mean(samples[2 * input + 1], samples[2 * input + 3]);
        HalvedSnoc(samples, input);
        MeanIsSample(samples[2 * input], samples[2 * input + 2]);
        MeanIsSample(samples[2 * input + 1], samples[2 * input + 3]);
        Gather(a, b, listeners);
        input := input + 2;
      }
      HalvedRest(samples, input);
    }

    method EncodeFrames() returns (data: seq<byte>, leftIndex: int, rightIndex: int)
      requires pcm.Length == 2 * FRAMES && Samples(pcm[..])
      requires 0 <= indexLeft <= 88 && 0 <= indexRight <= 88
      ensures |data| == FRAMES - 1
      ensures var l, r := Predictor(pcm[0], indexLeft), Predictor(pcm[1], indexRight);
              && Ok(l) && Ok(r)
              && LeftCodes(data) == EncodeAll(Channel(pcm[..], 0)[1..], l)
              && RightCodes(data) == EncodeAll(Channel(pcm[..], 1)[1..], r)
              && leftIndex == Final(LeftCodes(data), l).index
              && rightIndex == Final(RightCodes(data), r).index
    {
      hide Code, Decode, LeftCodes, RightCodes, EncodeAll, Final;
      ghost var xs, ys := Channel(pcm[..], 0), Channel(pcm[..], 1);
      ghost var l, r := Predictor(pcm[0], indexLeft), Predictor(pcm[1], indexRight);
      assert Sample(pcm[..][0]) && Sample(pcm[..][1]);
      var left: Predictor, right: Predictor := Predictor(pcm[0], indexLeft), Predictor(pcm[1], indexRight);
      data := [];
      NothingCoded(l);
      NothingCoded(r);
      assert xs[1..1] == [] && ys[1..1] == [];
      for frame := 1 to FRAMES
        invariant |data| == frame - 1
        invariant LeftCodes(data) == EncodeAll(xs[1..frame], l)
        invariant RightCodes(data) == EncodeAll(ys[1..frame], r)
        invariant left == Final(LeftCodes(data), l) && right == Final(RightCodes(data), r)
      {
        var x, y := pcm[2 * frame], pcm[2 * frame + 1];
        assert Sample(pcm[..][2 * frame]) && Sample(pcm[..][2 * frame + 1]);
        assert xs[1..frame + 1] == xs[1..frame] + [x] && ys[1..frame + 1] == ys[1..frame] + [y];
        EncodeAllSnoc(xs[1..frame], x, l);
        EncodeAllSnoc(ys[1..frame], y, r);
        var leftCode, leftValue, leftStep := EncodeNibble(x, left.value, left.index);
        var rightCode, rightValue, rightStep := EncodeNibble(y, right.value, right.index);
        Packed(data, leftCode, rightCode);
        left, right := Predictor(leftValue, leftStep), Predictor(rightValue, rightStep);
        data := data + [Pack(leftCode, rightCode)];
      }
      assert xs[1..FRAMES] == xs[1..] && ys[1..FRAMES] == ys[1..];
      leftIndex, rightIndex := left.index, right.index;
    }
  }

  lemma SuffixGrows(g: seq<int>, p: seq<int>, left: int, right: int)
    requires |p| <= |g| && g[|g| - |p|..] == p
    ensures (g + [left, right])[|g| - |p|..] == p + [left, right]
  {
  }

  lemma SamplesGrow(xs: seq<int>, left: int, right: int)
    requires Samples(xs) && Sample(left) && Sample(right)
    ensures Samples(xs + [left, right])
  {
  }

  lemma NextFrame(n: nat, frames: nat)
    requires frames < FRAMES && n % (2 * FRAMES) == 2 * frames
    ensures (n + 2) % (2 * FRAMES) == if frames + 1 == FRAMES then 0 else 2 * (frames + 1)
  {
  }

  lemma NothingCoded(p: Predictor)
    requires Ok(p)
    ensures EncodeAll([], p) == [] && Final([], p) == p && LeftCodes([]) == [] && RightCodes([]) == []
  {
  }

  /** Neighbouring stereo frames averaged, channel by channel; an odd last frame is left out. */
  function Halved(xs: seq<int>): seq<int> {
    if |xs| < 4 then [] else [Mean(xs[0], xs[2]), Mean(xs[1], xs[3])] + Halved(xs[4..])
  }

  lemma {:induction false} HalvedAppend(xs: seq<int>, ys: seq<int>)
    requires |xs| % 4 == 0
    ensures Halved(xs + ys) == Halved(xs) + Halved(ys)
    decreases |xs|
  {
    if xs == [] {
      assert xs + ys == ys;
    } else {
      assert (xs + ys)[4..] == xs[4..] + ys;
      HalvedAppend(xs[4..], ys);
    }
  }

  lemma HalvedNothing()
    ensures Halved([]) == []
  {
  }

  lemma HalvedSnoc(xs: seq<int>, input: nat)
    requires input % 2 == 0 && 2 * input + 4 <= |xs|
    ensures Halved(xs[..2 * (input + 2)]) == Halved(xs[..2 * input])
            + [Mean(xs[2 * input], xs[2 * input + 2]), Mean(xs[2 * input + 1], xs[2 * input + 3])]
  {
    var ys := xs[2 * input..2 * (input + 2)];
    assert xs[..2 * (input + 2)] == xs[..2 * input] + ys;
    HalvedAppend(xs[..2 * input], ys);
    assert ys[4..] == [];
    assert Halved(ys) == [Mean(ys[0], ys[2]), Mean(ys[1], ys[3])] + [];
  }

  lemma HalvedRest(xs: seq<int>, input: nat)
    requires |xs| % 2 == 0 && input % 2 == 0 && |xs| / 2 <= input + 1 && input <= |xs| / 2
    ensures Halved(xs[..2 * input]) == Halved(xs)
  {
    hide Halved;
    var rest := xs[2 * input..];
    assert xs == xs[..2 * input] + rest;
    HalvedAppend(xs[..2 * input], rest);
    HalvedShort(rest);
    assert Halved(xs[..2 * input]) + [] == Halved(xs[..2 * input]);
  }

  lemma HalvedShort(xs: seq<int>)
    requires |xs| < 4
    ensures Halved(xs) == []
  {
  }

  lemma SamplesOf(gathered: seq<int>, pcm: seq<int>)
    requires Samples(gathered) && |pcm| <= |gathered| && gathered[|gathered| - |pcm|..] == pcm
    ensures Samples(pcm)
  {
    forall i | 0 <= i < |pcm|
      ensures Sample(pcm[i])
    {
      assert pcm[i] == gathered[|gathered| - |pcm| + i];
    }
  }

  lemma HeaderIndices(k: Packet, pcm: seq<int>, indexLeft: int, indexRight: int)
    requires |pcm| == 2 * FRAMES && Samples(pcm) && 0 <= indexLeft <= 88 && 0 <= indexRight <= 88
    requires Encodes(k, pcm, indexLeft, indexRight)
    ensures k.indexLeft == indexLeft && k.indexRight == indexRight
  {
  }

  lemma EndsHere(k: Packet)
    requires Playable(k)
    ensures EndsLeft(k) == Final(LeftCodes(k.data), Predictor(k.valueLeft, k.indexLeft)).index
    ensures EndsRight(k) == Final(RightCodes(k.data), Predictor(k.valueRight, k.indexRight)).index
  {
  }

  lemma HistoryGrows(gathered: seq<int>, packets: seq<Packet>, blocks: seq<nat>, more: seq<int>)
    requires History(gathered, packets, blocks)
    ensures History(gathered + more, packets, blocks)
  {
    hide Encodes, Playable;
    forall i | 0 <= i < |blocks|
      ensures Block(gathered + more, blocks[i]) == Block(gathered, blocks[i])
    {
    }
  }

  lemma BlocksBefore(gathered: seq<int>, packets: seq<Packet>, blocks: seq<nat>)
    requires History(gathered, packets, blocks)
    ensures forall i :: 0 <= i < |blocks| ==> 2 * FRAMES * (blocks[i] + 1) <= |gathered|
  {
    hide Encodes, Playable;
    assert forall i :: 0 <= i < |blocks| ==> HasBlock(gathered, blocks[i]);
  }

  lemma HistoryAppend(gathered: seq<int>, packets: seq<Packet>, blocks: seq<nat>, k: Packet, b: nat)
    requires History(gathered, packets, blocks)
    requires |gathered| == 2 * FRAMES * (b + 1) && Samples(gathered)
    requires forall i :: 0 <= i < |blocks| ==> blocks[i] < b
    requires Playable(k) && Samples(Block(gathered, b)) && Encodes(k, Block(gathered, b), k.indexLeft, k.indexRight)
    ensures History(gathered, packets + [k], blocks + [b])
  {
    hide Encodes, Playable;
  }

  lemma ChainedAppend(packets: seq<Packet>, indexLeft: int, indexRight: int, k: Packet)
    requires Chained(packets, indexLeft, indexRight) && Playable(k)
    requires k.indexLeft == indexLeft && k.indexRight == indexRight
    ensures Chained(packets + [k], EndsLeft(k), EndsRight(k))
  {
    hide EndsLeft, EndsRight;
    var all := packets + [k];
    forall i | 0 < i < |all|
      ensures EndsAt(all[i - 1], all[i].indexLeft, all[i].indexRight)
    {
      assert all[i - 1] == packets[i - 1];
      if i < |packets| {
        assert all[i] == packets[i];
      }
    }
  }
}
