/**
 The other end of the sound path: the Old 3DS's own decoder, with its own table, and what it plays of the
 packets the host makes.
 */
module Listener {
  import opened Adpcm

  const QUIET: seq<int> := [
    7, 8, 9, 10, 11, 12, 13, 14, 16, 17, 19, 21, 23, 25, 28, 31, 34, 37, 41, 45, 50, 55]
  const SOFT: seq<int> := [
    60, 66, 73, 80, 88, 97, 107, 118, 130, 143, 157, 173, 190, 209, 230, 253, 279, 307, 337, 371, 408, 449]
  const LOUD: seq<int> := [
    494, 544, 598, 658, 724, 796, 876, 963, 1060, 1166, 1282, 1411, 1552, 1707, 1878, 2066, 2272, 2499, 2749,
    3024, 3327, 3660]
  const LOUDEST: seq<int> := [
    4026, 4428, 4871, 5358, 5894, 6484, 7132, 7845, 8630, 9493, 10442, 11487, 12635, 13899, 15289, 16818, 18500,
    20350, 22385, 24623, 27086, 29794, 32767]

  /** The step sizes as the console has them. */
  const TABLE: seq<int> := QUIET + SOFT + LOUD + LOUDEST

  const ADJUSTMENTS: seq<int> := [-1, -1, -1, -1, 2, 4, 6, 8]

  /** Both ends step alike. */
  lemma SameTables()
    ensures |TABLE| == |STEPS| == 89
    ensures forall i :: 0 <= i < 89 ==> TABLE[i] == STEPS[i]
    ensures ADJUSTMENTS == ADJUST
  {
    assert QUIET == STEPS_LOW;
    assert SOFT == STEPS_MID;
    assert LOUD == STEPS_HIGH;
    assert LOUDEST == STEPS_TOP;
  }

  /** One code: the console's predictor and index move as the host's model of them did. */
  method DecodeNibble(code: nat, predictor: int, index: int) returns (predictor': int, index': int)
    requires code < 16 && Ok(Predictor(predictor, index))
    ensures Predictor(predictor', index') == Decode(code, Predictor(predictor, index))
  {
    hide STEPS, TABLE;
    SameTables();
    var step := TABLE[index];
    var delta := step / 8;
    if code / 4 % 2 == 1 {
      delta := delta + step;
    }
    if code / 2 % 2 == 1 {
      delta := delta + step / 2;
    }
    if code % 2 == 1 {
      delta := delta + step / 4;
    }
    predictor' := if code >= 8 then predictor - delta else predictor + delta;
    if predictor' < -32768 {
      predictor' := -32768;
    } else if predictor' > 32767 {
      predictor' := 32767;
    }
    index' := index + ADJUSTMENTS[code % 8];
    if index' < 0 {
      index' := 0;
    }
    if index' > 88 {
      index' := 88;
    }
  }

  /** A packet the console accepts. */
  predicate Accepted(k: Packet) {
    |k.data| == 479 && 0 <= k.indexLeft <= 88 && 0 <= k.indexRight <= 88
  }

  /** A header's samples have sixteen bits. */
  predicate Header(k: Packet) {
    Sample(k.valueLeft) && Sample(k.valueRight)
  }

  /** What frame f of a packet sounds like. */
  function PlaysLeft(k: Packet, f: nat): int
    requires Accepted(k) && Header(k) && f < FRAMES
  {
    if f == 0 then k.valueLeft else HeardLeft(k)[f - 1].value
  }

  function PlaysRight(k: Packet, f: nat): int
    requires Accepted(k) && Header(k) && f < FRAMES
  {
    if f == 0 then k.valueRight else HeardRight(k)[f - 1].value
  }

  lemma {:induction false} DecodeNext(codes: seq<nat>, p: Predictor, i: nat)
    requires Ok(p) && i < |codes| && forall j :: 0 <= j < |codes| ==> codes[j] < 16
    ensures DecodeAll(codes, p)[i] == Decode(codes[i], if i == 0 then p else DecodeAll(codes, p)[i - 1])
    decreases |codes|
  {
    hide Decode;
    if i > 0 {
      DecodeNext(codes[1..], Decode(codes[0], p), i - 1);
    }
  }

  /** Where the left channel stands before frame f. */
  function LeftAt(k: Packet, f: nat): Predictor
    requires Accepted(k) && Header(k) && f < FRAMES
  {
    if f == 0 then Predictor(k.valueLeft, k.indexLeft) else HeardLeft(k)[f - 1]
  }

  function RightAt(k: Packet, f: nat): Predictor
    requires Accepted(k) && Header(k) && f < FRAMES
  {
    if f == 0 then Predictor(k.valueRight, k.indexRight) else HeardRight(k)[f - 1]
  }

  lemma FrameNext(k: Packet, f: nat)
    requires Accepted(k) && Header(k) && 0 < f < FRAMES
    ensures LeftAt(k, f) == Decode(k.data[f - 1] as int % 16, LeftAt(k, f - 1))
    ensures RightAt(k, f) == Decode(k.data[f - 1] as int / 16, RightAt(k, f - 1))
    ensures Ok(LeftAt(k, f - 1)) && Ok(RightAt(k, f - 1))
  {
    hide Decode;
    DecodeNext(LeftCodes(k.data), Predictor(k.valueLeft, k.indexLeft), f - 1);
    DecodeNext(RightCodes(k.data), Predictor(k.valueRight, k.indexRight), f - 1);
  }

  /** Four samples of output for every frame: each channel twice, since the console plays at twice the rate. */
  predicate Plays(k: Packet, output: seq<int>, f: nat)
    requires Accepted(k) && Header(k) && f < FRAMES && 4 * f + 4 <= |output|
  {
    && output[4 * f] == output[4 * f + 2] == PlaysLeft(k, f)
    && output[4 * f + 1] == output[4 * f + 3] == PlaysRight(k, f)
  }

  /** The decoding loop, into the output buffer; any other packet is refused and the buffer left alone. */
  method DecodePacket(k: Packet, output: array<int>) returns (frames: int)
    requires Header(k) && output.Length >= 4 * FRAMES
    modifies output
    ensures Accepted(k) ==> frames == 960 && forall f: nat :: f < FRAMES ==> Plays(k, output[..], f)
    ensures !Accepted(k) ==> frames == -1 && output[..] == old(output[..])
  {
    hide HeardLeft, HeardRight, Decode;
    if |k.data| != 479 || k.indexLeft < 0 || k.indexLeft > 88 || k.indexRight < 0 || k.indexRight > 88 {
      return -1;
    }
    var leftPredictor, leftIndex := k.valueLeft, k.indexLeft;
    var rightPredictor, rightIndex := k.valueRight, k.indexRight;
    for frame := 0 to FRAMES
      invariant frame > 0 ==> Predictor(leftPredictor, leftIndex) == LeftAt(k, frame - 1)
      invariant frame > 0 ==> Predictor(rightPredictor, rightIndex) == RightAt(k, frame - 1)
      invariant frame == 0 ==> leftPredictor == k.valueLeft && leftIndex == k.indexLeft
      invariant frame == 0 ==> rightPredictor == k.valueRight && rightIndex == k.indexRight
      invariant forall f: nat :: f < frame ==> Plays(k, output[..], f)
    {
      if frame > 0 {
        FrameNext(k, frame);
        var packed := k.data[frame - 1];
        leftPredictor, leftIndex := DecodeNibble(packed as int % 16, leftPredictor, leftIndex);
        rightPredictor, rightIndex := DecodeNibble(packed as int / 16, rightPredictor, rightIndex);
      }
      ghost var before := output[..];
      PlayFrame(output, frame, leftPredictor, rightPredictor);
      forall f: nat | f < frame
        ensures Plays(k, output[..], f)
      {
        assert Plays(k, before, f);
      }
    }
    frames := 960;
  }

  method PlayFrame(output: array<int>, frame: nat, left: int, right: int)
    requires 4 * frame + 4 <= output.Length
    modifies output
    ensures output[..] == old(output[..])[4 * frame := left][4 * frame + 1 := right]
                                         [4 * frame + 2 := left][4 * frame + 3 := right]
  {
    var out := frame * 4;
    output[out] := left;
    output[out + 1] := right;
    output[out + 2] := left;
    output[out + 3] := right;
  }

  /**
   From the host's buffer to the console's speakers: the first frame of every packet is played exactly, and
   every other within an eighth of the step in force (and two), unless the encoder was catching up.
   */
  lemma PlayedFaithfully(k: Packet, pcm: seq<int>, f: nat)
    requires |pcm| == 2 * FRAMES && Samples(pcm) && Accepted(k) && Header(k) && f < FRAMES
    requires Encodes(k, pcm, k.indexLeft, k.indexRight)
    ensures f == 0 ==> PlaysLeft(k, f) == pcm[0] && PlaysRight(k, f) == pcm[1]
    ensures f > 0 && !Overloaded(pcm[2 * f], LeftAt(k, f - 1)) ==>
              -(StepOf(LeftAt(k, f - 1)) / 8) - 2 <= PlaysLeft(k, f) - pcm[2 * f] <= StepOf(LeftAt(k, f - 1)) / 8 + 2
    ensures f > 0 && !Overloaded(pcm[2 * f + 1], RightAt(k, f - 1)) ==>
              -(StepOf(RightAt(k, f - 1)) / 8) - 2
              <= PlaysRight(k, f) - pcm[2 * f + 1] <= StepOf(RightAt(k, f - 1)) / 8 + 2
  {
    hide HeardLeft, HeardRight, Overloaded, StepOf, Encodes;
    FirstFrame(k, pcm);
    if f > 0 {
      PacketFidelity(k, pcm, f);
    }
  }

  lemma FirstFrame(k: Packet, pcm: seq<int>)
    requires |pcm| == 2 * FRAMES && Samples(pcm) && 0 <= k.indexLeft <= 88 && 0 <= k.indexRight <= 88
    requires Encodes(k, pcm, k.indexLeft, k.indexRight)
    ensures k.valueLeft == pcm[0] && k.valueRight == pcm[1]
  {
  }
}
