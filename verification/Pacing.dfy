/**
 The token bucket that keeps a chain at its real frame rate: credit accumulates with the monotonic
 clock, one frame costs one period, and a stall is not paid back.
 */
module Pacing {
  const SECOND_US: int := 1000000
  const STALL_US: int := SECOND_US / 2
  const WIIU_FRAME_US: int := SECOND_US / 60
  const OLD3DS_FRAME_US: int := SECOND_US / 30

  /** The last call and the credit left; a last call at zero means there was none. */
  datatype Bucket = Bucket(last: int, credit: int)

  function Credited(frame: int, b: Bucket, now: int): int {
    if b.last == 0 || now - b.last > STALL_US then frame
    else
      var elapsed := if now < b.last then 0 else now - b.last;
      if b.credit + elapsed > 2 * frame then 2 * frame else b.credit + elapsed
  }

  /** One capture callback: the new bucket, and whether the frame passes. */
  function Tick(frame: int, b: Bucket, now: int): (Bucket, bool) {
    var c := Credited(frame, b, now);
    if c < frame then (Bucket(now, c), false) else (Bucket(now, c - frame), true)
  }

  /** A run of callbacks: the final bucket and how many frames passed. */
  function Play(frame: int, b: Bucket, times: seq<int>): (r: (Bucket, nat))
    ensures times != [] ==> r.0.last == times[|times| - 1]
    ensures times == [] ==> r == (b, 0)
    decreases |times|
  {
    if times == [] then (b, 0)
    else
      var t := Tick(frame, b, times[0]);
      var r := Play(frame, t.0, times[1..]);
      (r.0, r.1 + if t.1 then 1 else 0)
  }

  /** A clock that does not go back, from `from` on. */
  predicate Monotonic(from: int, times: seq<int>)
    decreases |times|
  {
    times == [] || (from <= times[0] && Monotonic(times[0], times[1..]))
  }

  predicate Started(frame: int, b: Bucket) {
    0 < frame <= STALL_US / 2 && 0 < b.last && 0 <= b.credit <= frame
  }

  /**
   One call never creates credit: what it spends and keeps is at most what was there and what the
   clock added, and exactly that if and only if the bucket did not overflow.
   */
  lemma TickBalance(frame: int, b: Bucket, now: int)
    requires Started(frame, b) && b.last <= now
    ensures var t := Tick(frame, b, now);
            var spent := if t.1 then frame else 0;
            && Started(frame, t.0)
            && spent + t.0.credit <= b.credit + (now - b.last)
            && (spent + t.0.credit == b.credit + (now - b.last) <==> b.credit + (now - b.last) <= 2 * frame)
  {
  }

  /** Over any run the frames passed are paid for by the time that went by, even across stalls. */
  lemma {:induction false} NeverTooFast(frame: int, b: Bucket, times: seq<int>)
    requires Started(frame, b) && Monotonic(b.last, times)
    ensures var r := Play(frame, b, times);
            Started(frame, r.0) && r.1 * frame + r.0.credit <= b.credit + (r.0.last - b.last)
    decreases |times|
  {
    hide Tick;
    if times != [] {
      var t := Tick(frame, b, times[0]);
      TickBalance(frame, b, times[0]);
      LastIsNow(frame, b, times[0]);
      NeverTooFast(frame, t.0, times[1..]);
      var n := Play(frame, t.0, times[1..]).1;
      assert (n + 1) * frame == n * frame + frame;
    }
  }

  lemma LastIsNow(frame: int, b: Bucket, now: int)
    ensures Tick(frame, b, now).0.last == now
  {
  }

  /** Between two calls, at most one frame more than the periods that fit between them. */
  lemma AtMostOnePerPeriod(frame: int, b: Bucket, times: seq<int>)
    requires Started(frame, b) && Monotonic(b.last, times)
    ensures var r := Play(frame, b, times);
            r.0.last >= b.last && r.1 <= 1 + (r.0.last - b.last) / frame
  {
    NeverTooFast(frame, b, times);
    MonotonicEnd(frame, b, times);
    var r := Play(frame, b, times);
    AtMostQuotient(r.1, frame, r.0.last - b.last);
  }

  lemma {:induction false} MonotonicEnd(frame: int, b: Bucket, times: seq<int>)
    requires Monotonic(b.last, times)
    ensures Play(frame, b, times).0.last >= b.last
    decreases |times|
  {
    if times != [] {
      MonotonicEnd(frame, Tick(frame, b, times[0]).0, times[1..]);
    }
  }

  lemma AtMostQuotient(n: nat, d: int, x: int)
    requires d > 0 && x >= 0 && n * d <= d + x
    ensures n <= 1 + x / d
  {
    var z := n - 1 - x / d;
    assert z * d == n * d - d - (x / d) * d;
    FactorNotPositive(z, d);
  }

  lemma FactorNotPositive(z: int, d: int)
    requires d > 0 && z * d < d
    ensures z <= 0
  {
  }

  /** Calls no further apart than a frame period. */
  predicate Dense(frame: int, from: int, times: seq<int>)
    decreases |times|
  {
    times == [] || (from <= times[0] <= from + frame && Dense(frame, times[0], times[1..]))
  }

  /** A capture at least as fast as the chain loses no credit: the account balances exactly. */
  lemma {:induction false} CreditConserved(frame: int, b: Bucket, times: seq<int>)
    requires Started(frame, b) && Dense(frame, b.last, times)
    ensures var r := Play(frame, b, times);
            Started(frame, r.0) && r.1 * frame + r.0.credit == b.credit + (r.0.last - b.last)
    decreases |times|
  {
    hide Tick;
    if times != [] {
      var t := Tick(frame, b, times[0]);
      TickBalance(frame, b, times[0]);
      LastIsNow(frame, b, times[0]);
      CreditConserved(frame, t.0, times[1..]);
      var n := Play(frame, t.0, times[1..]).1;
      assert (n + 1) * frame == n * frame + frame;
    }
  }

  lemma AtLeastQuotient(n: nat, d: int, x: int)
    requires d > 0 && x >= 0 && n * d + d >= x
    ensures n >= x / d - 1
  {
    var z := x / d - 1 - n;
    assert z * d == (x / d) * d - d - n * d;
    FactorNotPositive(z, d);
  }

  /** And so it is never too slow either. */
  lemma NeverTooSlow(frame: int, b: Bucket, times: seq<int>)
    requires Started(frame, b) && Dense(frame, b.last, times)
    ensures var r := Play(frame, b, times);
            r.0.last >= b.last && r.1 >= (r.0.last - b.last) / frame - 1
  {
    CreditConserved(frame, b, times);
    DenseEnd(frame, b, times);
    var r := Play(frame, b, times);
    AtLeastQuotient(r.1, frame, r.0.last - b.last);
  }

  lemma {:induction false} DenseEnd(frame: int, b: Bucket, times: seq<int>)
    requires Dense(frame, b.last, times)
    ensures Play(frame, b, times).0.last >= b.last
    decreases |times|
  {
    if times != [] {
      DenseEnd(frame, Tick(frame, b, times[0]).0, times[1..]);
    }
  }

  /** From a cold start the first frame passes and the account opens empty. */
  lemma FirstCall(frame: int, credit: int, now: int)
    requires 0 < frame <= STALL_US / 2 && now > 0
    ensures Tick(frame, Bucket(0, credit), now) == (Bucket(now, 0), true)
    ensures Started(frame, Bucket(now, 0))
  {
  }

  /** After a gap of two periods or more, short of a stall, two frames pass at once and not three. */
  lemma BurstOfTwo(frame: int, b: Bucket, now: int)
    requires Started(frame, b) && 2 * frame <= now - b.last <= 500000
    ensures Play(frame, b, [now, now, now]) == (Bucket(now, 0), 2)
  {
    var b1, b2 := Bucket(now, frame), Bucket(now, 0);
    assert Tick(frame, b, now) == (b1, true) && Tick(frame, b1, now) == (b2, true);
    assert Tick(frame, b2, now) == (b2, false);
    assert [now, now, now][1..] == [now, now] && [now, now][1..] == [now] && [now][1..] == [];
    assert Play(frame, b2, [now]) == (b2, 0);
    assert Play(frame, b1, [now, now]) == (b2, 1);
  }

  /** After half a second without a call only one does. */
  lemma OneAfterAStall(frame: int, b: Bucket, now: int)
    requires Started(frame, b) && now - b.last > 500000
    ensures Play(frame, b, [now, now]) == (Bucket(now, 0), 1)
  {
    var b1 := Bucket(now, 0);
    assert Tick(frame, b, now) == (b1, true) && Tick(frame, b1, now) == (b1, false);
    assert [now, now][1..] == [now] && [now][1..] == [];
  }

  /** Why the clock must not read zero: a call at zero leaves no trace, so every such call passes. */
  lemma {:induction false} ZeroClockPassesAll(frame: int, credit: int, n: nat)
    requires 0 < frame
    ensures Play(frame, Bucket(0, credit), seq(n, _ => 0)).1 == n
    decreases n
  {
    if n > 0 {
      assert seq(n, _ => 0)[1..] == seq(n - 1, _ => 0);
      ZeroClockPassesAll(frame, 0, n - 1);
    }
  }

  /** The two fields a chain keeps, and the test each of its pushes begins with. */
  class Pacer {
    const frameUs: int
    var lastUs: int
    var creditUs: int

    constructor (frame: int)
      ensures frameUs == frame && lastUs == 0 && creditUs == 0
    {
      frameUs, lastUs, creditUs := frame, 0, 0;
    }

    method Admit(now: int) returns (pass: bool)
      modifies `lastUs, `creditUs
      ensures (Bucket(lastUs, creditUs), pass) == Tick(frameUs, Bucket(old(lastUs), old(creditUs)), now)
    {
      if lastUs == 0 || now - lastUs > STALL_US {
        lastUs := now;
        creditUs := frameUs;
      } else {
        var elapsed := now - lastUs;
        if elapsed < 0 {
          elapsed := 0;
        }
        lastUs := now;
        creditUs := creditUs + elapsed;
        if creditUs > frameUs * 2 {
          creditUs := frameUs * 2;
        }
      }
      if creditUs < frameUs {
        return false;
      }
      creditUs := creditUs - frameUs;
      pass := true;
    }
  }
}
