/**
 The ring between capture and the local speakers: bounded, never blocking the producer, dropping
 its oldest chunk when full; and the drift correction applied to each chunk that comes out.
 */
module PlaybackRing {
  const CHUNKS: nat := 24
  const DRIFT_HIGH: nat := CHUNKS * 3 / 4
  const DRIFT_LOW: nat := CHUNKS / 4

  type Chunk = seq<int>

  /** The ring as a queue, with its history: everything pushed, and which pushes were popped or dropped. */
  datatype Trace = Trace(queue: seq<Chunk>, pushed: seq<Chunk>, popped: seq<nat>, dropped: seq<nat>)

  const EMPTY: Trace := Trace([], [], [], [])

  /** The number of the oldest chunk still queued. */
  function Oldest(t: Trace): nat {
    if |t.pushed| >= |t.queue| then |t.pushed| - |t.queue| else 0
  }

  function Push(t: Trace, x: Chunk): Trace {
    var t1 := if |t.queue| == CHUNKS
              then t.(queue := t.queue[1..], dropped := t.dropped + [Oldest(t)])
              else t;
    t1.(queue := t1.queue + [x], pushed := t1.pushed + [x])
  }

  function Pop(t: Trace): Trace
    requires t.queue != []
  {
    t.(queue := t.queue[1..], popped := t.popped + [Oldest(t)])
  }

  predicate Increasing(ns: seq<nat>) {
    forall i, j :: 0 <= i < j < |ns| ==> ns[i] < ns[j]
  }

  predicate AllBelow(ns: seq<nat>, n: nat) {
    forall i :: 0 <= i < |ns| ==> ns[i] < n
  }

  /** The queue is the last few pushes; what left it left in order, each push once, one way or the other. */
  predicate Sound(t: Trace) {
    && |t.queue| <= CHUNKS && |t.queue| <= |t.pushed|
    && t.queue == t.pushed[|t.pushed| - |t.queue|..]
    && Increasing(t.popped) && AllBelow(t.popped, Oldest(t))
    && Increasing(t.dropped) && AllBelow(t.dropped, Oldest(t))
    && (forall i :: 0 <= i < |t.popped| ==> t.popped[i] !in t.dropped)
    && |t.pushed| == |t.popped| + |t.dropped| + |t.queue|
  }

  datatype Op = Pushed(chunk: Chunk) | Popped

  /** A pop from an empty ring waits; it is no step. */
  function Apply(t: Trace, op: Op): Trace {
    match op
    case Pushed(x) => Push(t, x)
    case Popped => if t.queue != [] then Pop(t) else t
  }

  function ApplyAll(t: Trace, ops: seq<Op>): Trace {
    if ops == [] then t else Apply(ApplyAll(t, ops[..|ops| - 1]), ops[|ops| - 1])
  }

  lemma ApplySound(t: Trace, op: Op)
    requires Sound(t)
    ensures Sound(Apply(t, op))
  {
    hide Push, Pop, Sound;
    match op {
      case Pushed(x) => PushSound(t, x);
      case Popped =>
        if t.queue != [] {
          PopSound(t);
        }
    }
  }

  lemma PopSound(t: Trace)
    requires Sound(t) && t.queue != []
    ensures Sound(Pop(t))
  {
    LeavesInOrder(t.popped, Oldest(t));
  }

  lemma PushSound(t: Trace, x: Chunk)
    requires Sound(t)
    ensures Sound(Push(t, x))
  {
    hide Increasing;
    LeavesInOrder(t.dropped, Oldest(t));
  }

  /** The oldest chunk has a larger number than any that left before it. */
  lemma LeavesInOrder(ns: seq<nat>, n: nat)
    requires Increasing(ns) && AllBelow(ns, n)
    ensures Increasing(ns + [n]) && AllBelow(ns + [n], n + 1) && n !in ns
  {
  }

  /**
   Over any run, in any interleaving: what is queued is exactly the latest pushes, the chunks popped
   came out in push order, and every push is popped, dropped or queued, once.
   */
  lemma {:induction false} RingIsDropOldestFifo(ops: seq<Op>)
    ensures Sound(ApplyAll(EMPTY, ops))
    decreases |ops|
  {
    if ops != [] {
      RingIsDropOldestFifo(ops[..|ops| - 1]);
      ApplySound(ApplyAll(EMPTY, ops[..|ops| - 1]), ops[|ops| - 1]);
    }
  }

  /** A chunk is dropped only when the ring is full, and then it is the oldest one. */
  lemma DropsOnlyWhenFull(t: Trace, op: Op)
    requires Sound(t)
    ensures Apply(t, op).dropped != t.dropped <==> op.Pushed? && |t.queue| == CHUNKS
    ensures Apply(t, op).dropped != t.dropped ==>
              Apply(t, op).dropped == t.dropped + [Oldest(t)] && t.pushed[Oldest(t)] == t.queue[0]
  {
  }

  // ------------------------------------------------------------------ clock drift

  /** What is written out for a chunk, given how full the ring is left: a frame less, as is, or a frame more. */
  function Corrected(chunk: Chunk, fill: nat): (out: Chunk)
    requires |chunk| >= 2
    ensures |chunk| - 2 <= |out| <= |chunk| + 2
  {
    if fill > DRIFT_HIGH then chunk[..|chunk| - 2]
    else if fill < DRIFT_LOW then chunk + chunk[|chunk| - 2..]
    else chunk
  }

  /** In whole frames of two samples: over eighteen chunks the last frame goes, under six it is repeated. */
  lemma CorrectedByAFrame(chunk: Chunk, fill: nat)
    requires |chunk| >= 2
    ensures var out, n := Corrected(chunk, fill), |chunk|;
            && (fill > 18 ==> |out| == n - 2)
            && (6 <= fill <= 18 ==> |out| == n)
            && (fill < 6 ==> |out| == n + 2 && out[n] == chunk[n - 2] && out[n + 1] == chunk[n - 1])
            && forall i :: 0 <= i < n && i < |out| ==> out[i] == chunk[i]
  {
  }

  /** So a full ring of twenty-four is shortened, and the last chunk there is is stretched. */
  lemma FullShortensLastStretches(t: Trace)
    requires Sound(t) && t.queue != [] && |t.queue[0]| >= 2
    ensures var out := Corrected(t.queue[0], |Pop(t).queue|);
            && |t.queue| <= 24
            && (|t.queue| == 24 ==> |out| + 2 == |t.queue[0]|)
            && (|t.queue| == 1 ==> |out| == |t.queue[0]| + 2)
  {
  }

  class Ring {
    const data: array<Chunk>
    const chunkSamples: nat
    var head: nat
    var tail: nat
    var count: nat

    ghost var pushed: seq<Chunk>
    ghost var popped: seq<nat>
    ghost var dropped: seq<nat>

    ghost function Queue(): (q: seq<Chunk>)
      reads `tail, `count, data
      requires data.Length == CHUNKS
      ensures |q| == count
    {
      var t := tail;
      seq(count, k requires 0 <= k && data.Length == CHUNKS reads data => data[(t + k) % CHUNKS])
    }

    ghost function View(): Trace
      reads this, data
      requires data.Length == CHUNKS
    {
      Trace(Queue(), pushed, popped, dropped)
    }

    ghost predicate Valid()
      reads this, data
    {
      && data.Length == CHUNKS && chunkSamples >= 2
      && head < CHUNKS && tail < CHUNKS && count <= CHUNKS
      && head == (tail + count) % CHUNKS
      && (forall i :: 0 <= i < CHUNKS ==> |data[i]| == chunkSamples)
      && Sound(View())
    }

    constructor (samples: nat)
      requires samples >= 2
      ensures Valid() && fresh(data) && chunkSamples == samples && View() == EMPTY
    {
      chunkSamples := samples;
      data := new Chunk[CHUNKS](_ => seq(samples, _ => 0));
      head, tail, count := 0, 0, 0;
      pushed, popped, dropped := [], [], [];
      new;
      assert Queue() == [];
    }

    /** Forgets the oldest chunk to make room. */
    method DropOldest()
      requires Valid() && count == CHUNKS
      modifies `tail, `count, `dropped
      ensures data.Length == CHUNKS && tail < CHUNKS && count == CHUNKS - 1 && head == (tail + count) % CHUNKS
      ensures Queue() == old(Queue())[1..] && dropped == old(dropped) + [old(Oldest(View()))]
    {
      dropped := dropped + [Oldest(View())];
      tail := (tail + 1) % CHUNKS;
      count := count - 1;
      assert Queue() == old(Queue())[1..];
    }

    /** Puts a chunk at the head; there is room. */
    method Store(samples: Chunk)
      requires data.Length == CHUNKS && head < CHUNKS && tail < CHUNKS && count < CHUNKS
      requires head == (tail + count) % CHUNKS && |samples| == chunkSamples
      requires forall i :: 0 <= i < CHUNKS ==> |data[i]| == chunkSamples
      modifies `head, `count, `pushed, data
      ensures head < CHUNKS && count <= CHUNKS && head == (tail + count) % CHUNKS
      ensures forall i :: 0 <= i < CHUNKS ==> |data[i]| == chunkSamples
      ensures Queue() == old(Queue()) + [samples] && pushed == old(pushed) + [samples]
    {
      ghost var q := Queue();
      data[head] := samples;
      head := (head + 1) % CHUNKS;
      count := count + 1;
      pushed := pushed + [samples];
      assert Queue() == q + [samples];
    }

    /** Never blocks: if the consumer is behind, the oldest chunk goes. */
    method PushChunk(samples: Chunk)
      requires Valid() && |samples| == chunkSamples
      modifies this, data
      ensures Valid() && View() == Push(old(View()), samples)
    {
      hide Sound, Queue;
      ApplySound(View(), Pushed(samples));
      if count == CHUNKS {
        DropOldest();
      }
      Store(samples);
    }

    /** Takes the chunk at the tail. */
    method TakeOldest() returns (x: Chunk)
      requires data.Length == CHUNKS && tail < CHUNKS && 0 < count <= CHUNKS && head == (tail + count) % CHUNKS
      modifies `tail, `count
      ensures tail < CHUNKS && count < CHUNKS && head == (tail + count) % CHUNKS
      ensures x == old(data[tail]) && x == old(Queue())[0] && Queue() == old(Queue())[1..]
    {
      x := data[tail];
      ghost var q := Queue();
      assert x == q[0];
      tail := (tail + 1) % CHUNKS;
      count := count - 1;
      assert Queue() == q[1..];
    }

    /** Takes the oldest chunk and corrects it for drift; the caller has waited for one to be there. */
    method PopChunk() returns (out: Chunk)
      requires Valid() && count > 0
      modifies this
      ensures Valid() && View() == Pop(old(View()))
      ensures out == Corrected(old(View()).queue[0], count)
    {
      hide Sound, Queue;
      ApplySound(View(), Popped);
      popped := popped + [Oldest(View())];
      out := TakeOldest();
      var fill := count;
      if fill > DRIFT_HIGH {
        out := out[..chunkSamples - 2];
      } else if fill < DRIFT_LOW {
        out := out + [out[chunkSamples - 2], out[chunkSamples - 1]];
      }
    }
  }
}
