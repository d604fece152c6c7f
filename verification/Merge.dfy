/**
 Several controllers as one: the slot table of live sources, the merge that is sent on, and the
 second merge with the pad plugged into the adapter.
 */
module Merge {
  import opened Bytes
  import opened Shaping

  const MAX_SOURCES: nat := 8
  const TIMEOUT_MS: nat := 1500
  const TICKS: nat := 0x1_0000_0000

  datatype Source = Source(inUse: bool, key: nat, last: nat, state: seq<int>)

  const NO_SOURCE: Source := Source(false, 0, 0, seq(STATE_COUNT, _ => 0))

  predicate IsAxis(i: int) {
    i == RX || i == RY || i == LX || i == LY
  }

  predicate Live(now: nat, s: Source) {
    s.inUse && (now - s.last) % TICKS <= TIMEOUT_MS
  }

  predicate TableOk(ss: seq<Source>) {
    |ss| == MAX_SOURCES && forall i :: 0 <= i < MAX_SOURCES ==> |ss[i].state| == STATE_COUNT
  }

  /** No key is held by two slots. */
  predicate NoKeyTwice(ss: seq<Source>) {
    forall i, j :: 0 <= i < j < |ss| && ss[i].inUse && ss[j].inUse ==> ss[i].key != ss[j].key
  }

  // ------------------------------------------------------------------ merging

  /** The larger deflection wins on an axis, the larger value on a button. */
  function Fold(i: int, acc: int, v: int): int {
    if IsAxis(i) then (if AbsInt(v) > AbsInt(acc) then v else acc)
    else if v > acc then v else acc
  }

  function MergeInto(acc: seq<int>, st: seq<int>): (m: seq<int>)
    requires |acc| == |st| == STATE_COUNT
    ensures |m| == STATE_COUNT
  {
    seq(STATE_COUNT, i requires 0 <= i < STATE_COUNT => Fold(i, acc[i], st[i]))
  }

  predicate States(sts: seq<seq<int>>) {
    forall i :: 0 <= i < |sts| ==> |sts[i]| == STATE_COUNT
  }

  /** The merge of several states, in the order the table holds them. */
  function MergeAll(sts: seq<seq<int>>): (m: seq<int>)
    requires States(sts)
    ensures |m| == STATE_COUNT
  {
    if sts == [] then seq(STATE_COUNT, _ => 0)
    else MergeInto(MergeAll(sts[..|sts| - 1]), sts[|sts| - 1])
  }

  /** What a merge is, with no order in it: every value is at rest or somebody's, and nobody exceeds it. */
  predicate MergesAt(i: nat, v: int, sts: seq<seq<int>>)
    requires States(sts) && i < STATE_COUNT
  {
    && (v == 0 || exists k :: 0 <= k < |sts| && sts[k][i] == v)
    && (if IsAxis(i) then forall k :: 0 <= k < |sts| ==> AbsInt(sts[k][i]) <= AbsInt(v)
        else v >= 0 && forall k :: 0 <= k < |sts| ==> sts[k][i] <= v)
  }

  /** In numbers: the four stick axes, nine to twelve, keep the larger deflection with its sign, the first of
      two equal ones; everything else keeps the larger value. */
  lemma FoldInNumbers(i: nat, a: int, b: int)
    requires i < 21
    ensures var r := Fold(i, a, b);
            if 9 <= i <= 12 then r == (if (b > a && b > -a) || (b < a && b < -a) then b else a)
            else r == (if b > a then b else a)
  {
  }

  predicate IsMerge(m: seq<int>, sts: seq<seq<int>>)
    requires States(sts)
  {
    |m| == STATE_COUNT && forall i :: 0 <= i < STATE_COUNT ==> MergesAt(i, m[i], sts)
  }

  lemma FoldMerges(i: nat, acc: int, sts: seq<seq<int>>, st: seq<int>)
    requires i < STATE_COUNT && States(sts) && |st| == STATE_COUNT && MergesAt(i, acc, sts)
    ensures MergesAt(i, Fold(i, acc, st[i]), sts + [st])
  {
    var all := sts + [st];
    assert all[|sts|] == st;
    if k :| 0 <= k < |sts| && sts[k][i] == acc {
      assert all[k][i] == acc;
    }
    assert forall k :: 0 <= k < |sts| ==> all[k] == sts[k];
  }

  lemma {:induction false} MergeAllMerges(sts: seq<seq<int>>)
    requires States(sts)
    ensures IsMerge(MergeAll(sts), sts)
    decreases |sts|
  {
    hide MergesAt, Fold;
    if sts == [] {
      NothingMerges(sts);
    } else {
      var n := |sts| - 1;
      MergeAllMerges(sts[..n]);
      assert sts == sts[..n] + [sts[n]];
      forall i | 0 <= i < STATE_COUNT
        ensures MergesAt(i, MergeAll(sts)[i], sts)
      {
        FoldMerges(i, MergeAll(sts[..n])[i], sts[..n], sts[n]);
      }
    }
  }

  lemma NothingMerges(sts: seq<seq<int>>)
    requires sts == []
    ensures IsMerge(MergeAll(sts), sts)
  {
  }

  predicate SameStates(a: seq<seq<int>>, b: seq<seq<int>>) {
    (forall k :: 0 <= k < |a| ==> a[k] in b) && (forall k :: 0 <= k < |b| ==> b[k] in a)
  }

  /** Two sources deflect this axis exactly as far, in opposite directions. */
  predicate ExactTie(i: nat, sts: seq<seq<int>>)
    requires States(sts) && i < STATE_COUNT
  {
    exists j, k :: 0 <= j < |sts| && 0 <= k < |sts| && sts[j][i] == -sts[k][i] && sts[j][i] != 0
  }

  /**
   The order of the slots does not matter: any two merges of the same states agree on every button
   and on how far every axis is deflected, and on its direction unless two sources tie exactly.
   */
  lemma OrderDoesNotMatter(a: seq<seq<int>>, b: seq<seq<int>>, i: nat)
    requires States(a) && States(b) && SameStates(a, b) && i < STATE_COUNT
    ensures !IsAxis(i) ==> MergeAll(a)[i] == MergeAll(b)[i]
    ensures AbsInt(MergeAll(a)[i]) == AbsInt(MergeAll(b)[i])
    ensures MergeAll(a)[i] != MergeAll(b)[i] ==> ExactTie(i, a)
  {
    MergeAllMerges(a);
    MergeAllMerges(b);
    var x, y := MergeAll(a)[i], MergeAll(b)[i];
    assert MergesAt(i, x, a) && MergesAt(i, y, b);
    MergeBelow(i, x, a, y, b);
    MergeBelow(i, y, b, x, a);
    if x != y && x != 0 {
      var j :| 0 <= j < |a| && a[j][i] == x;
      var k :| 0 <= k < |b| && b[k][i] == y;
      assert b[k] in a;
      var k' :| 0 <= k' < |a| && a[k'] == b[k];
      assert a[j][i] == -a[k'][i];
    }
  }

  lemma MergeBelow(i: nat, x: int, a: seq<seq<int>>, y: int, b: seq<seq<int>>)
    requires States(a) && States(b) && i < STATE_COUNT && MergesAt(i, x, a) && MergesAt(i, y, b)
    requires forall k :: 0 <= k < |a| ==> a[k] in b
    ensures if IsAxis(i) then AbsInt(x) <= AbsInt(y) else x <= y
  {
    if x != 0 {
      var k :| 0 <= k < |a| && a[k][i] == x;
      assert a[k] in b;
      var j :| 0 <= j < |b| && b[j] == a[k];
    }
  }

  // ------------------------------------------------------------------ the table

  /** The states of the live slots, in slot order. */
  function LiveStates(ss: seq<Source>, now: nat): (sts: seq<seq<int>>)
    requires forall i :: 0 <= i < |ss| ==> |ss[i].state| == STATE_COUNT
    ensures States(sts)
  {
    if ss == [] then []
    else
      var rest := LiveStates(ss[..|ss| - 1], now);
      if Live(now, ss[|ss| - 1]) then rest + [ss[|ss| - 1].state] else rest
  }

  /** What the table means: which source is live with which state. */
  predicate Holds(ss: seq<Source>, now: nat, key: nat, state: seq<int>) {
    exists i :: 0 <= i < |ss| && Live(now, ss[i]) && ss[i].key == key && ss[i].state == state
  }

  lemma {:induction false} LiveStatesAre(ss: seq<Source>, now: nat, st: seq<int>)
    requires forall i :: 0 <= i < |ss| ==> |ss[i].state| == STATE_COUNT
    ensures st in LiveStates(ss, now) <==> exists key :: Holds(ss, now, key, st)
  {
    if ss != [] {
      var n := |ss| - 1;
      LiveStatesAre(ss[..n], now, st);
      if st in LiveStates(ss, now) {
        if Live(now, ss[n]) && ss[n].state == st {
          assert Holds(ss, now, ss[n].key, st);
        } else {
          var key :| Holds(ss[..n], now, key, st);
          var i :| 0 <= i < n && Live(now, ss[..n][i]) && ss[..n][i].key == key && ss[..n][i].state == st;
          assert Live(now, ss[i]) && ss[i].key == key && ss[i].state == st;
          assert Holds(ss, now, key, st);
        }
      }
      if key :| Holds(ss, now, key, st) {
        var i :| 0 <= i < |ss| && Live(now, ss[i]) && ss[i].key == key && ss[i].state == st;
        if i < n {
          assert Live(now, ss[..n][i]) && ss[..n][i].key == key && ss[..n][i].state == st;
          assert Holds(ss[..n], now, key, st);
        }
      }
    }
  }

  /** Slots that have been silent too long are given up. */
  function Purged(ss: seq<Source>, now: nat): (r: seq<Source>)
    ensures |r| == |ss|
  {
    seq(|ss|, i requires 0 <= i < |ss| => PurgedSource(ss[i], now))
  }

  function PurgedSource(s: Source, now: nat): Source {
    if s.inUse && !Live(now, s) then s.(inUse := false) else s
  }

  lemma PurgedHolds(ss: seq<Source>, now: nat, key: nat, st: seq<int>)
    ensures Holds(Purged(ss, now), now, key, st) <==> Holds(ss, now, key, st)
    ensures NoKeyTwice(ss) ==> NoKeyTwice(Purged(ss, now))
  {
    var r := Purged(ss, now);
    if i :| 0 <= i < |ss| && Live(now, ss[i]) && ss[i].key == key && ss[i].state == st {
      assert r[i] == ss[i];
    }
    if i :| 0 <= i < |r| && Live(now, r[i]) && r[i].key == key && r[i].state == st {
      assert r[i] == ss[i];
    }
  }

  /** A source is live for a second and a half after its report, on a clock that wraps. */
  lemma LiveInNumbers(t: nat, d: nat, s: Source)
    requires s.inUse && s.last == t % 0x1_0000_0000 && d < 0x1_0000_0000
    ensures Live((t + d) % 0x1_0000_0000, s) <==> d <= 1500
  {
    var w := (t + d) / 0x1_0000_0000 - t / 0x1_0000_0000;
    assert w == 0 || w == 1;
  }

  /** After a merge, the slot of a source that was silent for longer is there for a newcomer. */
  lemma SilentMakesRoom(ss: seq<Source>, i: nat, t: nat, d: nat, key: nat, later: nat, state: seq<int>)
    requires i < |ss| && ss[i].last == t % 0x1_0000_0000 && 1500 < d < 0x1_0000_0000
    requires NoKeyTwice(ss) && later < TICKS
    ensures var r := Purged(ss, (t + d) % 0x1_0000_0000);
            !r[i].inUse && Place(r, key).Some? && Holds(Updated(r, key, later, state), later, key, state)
  {
    hide Place, Updated, Holds, Live;
    var now := (t + d) % 0x1_0000_0000;
    if ss[i].inUse {
      LiveInNumbers(t, d, ss[i]);
    }
    var r := Purged(ss, now);
    PurgedHolds(ss, now, key, state);
    UpdateMeans(r, key, later, state, key, state);
    assert !r[i].inUse;
  }

  /** The slot a source is written to: its own, or else the first free one. */
  function Place(ss: seq<Source>, key: nat): (p: Option<nat>)
    ensures p.Some? ==> p.value < |ss|
  {
    if OwnSlot(ss, key) < |ss| then Some(OwnSlot(ss, key))
    else if FreeSlot(ss) < |ss| then Some(FreeSlot(ss)) else None
  }

  function OwnSlot(ss: seq<Source>, key: nat): (i: nat)
    ensures i <= |ss| && (i < |ss| ==> ss[i].inUse && ss[i].key == key)
    ensures forall j :: 0 <= j < i ==> !(ss[j].inUse && ss[j].key == key)
  {
    if ss == [] then 0
    else
      var n := |ss| - 1;
      var i := OwnSlot(ss[..n], key);
      assert forall j :: 0 <= j < n ==> ss[..n][j] == ss[j];
      if i < n then i else if ss[n].inUse && ss[n].key == key then n else |ss|
  }

  function FreeSlot(ss: seq<Source>): (i: nat)
    ensures i <= |ss| && (i < |ss| ==> !ss[i].inUse)
    ensures forall j :: 0 <= j < i ==> ss[j].inUse
  {
    if ss == [] then 0
    else
      var n := |ss| - 1;
      var i := FreeSlot(ss[..n]);
      assert forall j :: 0 <= j < n ==> ss[..n][j] == ss[j];
      if i < n then i else if !ss[n].inUse then n else |ss|
  }

  function Updated(ss: seq<Source>, key: nat, now: nat, state: seq<int>): (r: seq<Source>)
    ensures |r| == |ss| && (TableOk(ss) && |state| == STATE_COUNT ==> TableOk(r))
  {
    var p := Place(ss, key);
    if p.Some? then ss[p.value := Source(true, key, now, state)] else ss
  }

  function Forgotten(ss: seq<Source>, key: nat): (r: seq<Source>)
    ensures |r| == |ss| && (TableOk(ss) ==> TableOk(r))
  {
    seq(|ss|, i requires 0 <= i < |ss| =>
      if ss[i].inUse && ss[i].key == key then ss[i].(inUse := false) else ss[i])
  }

  /**
   An update makes the table mean what it meant with this one source's state replaced -- unless the
   source is new and every slot is taken, when it is left out and nothing changes.
   */
  lemma UpdateMeans(ss: seq<Source>, key: nat, now: nat, state: seq<int>, k: nat, st: seq<int>)
    requires NoKeyTwice(ss) && now < TICKS
    ensures var r := Updated(ss, key, now, state);
            && NoKeyTwice(r)
            && (Place(ss, key).Some? ==>
                  (Holds(r, now, k, st) <==> if k == key then st == state else Holds(ss, now, k, st)))
            && (Place(ss, key).None? <==> forall i :: 0 <= i < |ss| ==> ss[i].inUse && ss[i].key != key)
            && (Place(ss, key).None? ==> r == ss)
  {
    var r := Updated(ss, key, now, state);
    if Place(ss, key).Some? {
      var p := Place(ss, key).value;
      assert r[p] == Source(true, key, now, state) && Live(now, r[p]);
      assert forall j :: 0 <= j < |ss| && j != p ==> r[j] == ss[j] && !(ss[j].inUse && ss[j].key == key);
      if k != key && Holds(ss, now, k, st) {
        var i :| 0 <= i < |ss| && Live(now, ss[i]) && ss[i].key == k && ss[i].state == st;
        assert i != p && r[i] == ss[i];
      }
      if Holds(r, now, k, st) {
        var i :| 0 <= i < |r| && Live(now, r[i]) && r[i].key == k && r[i].state == st;
        assert i != p ==> r[i] == ss[i];
      }
    }
  }

  /** Forgetting a source leaves exactly the others. */
  lemma ForgetMeans(ss: seq<Source>, key: nat, now: nat, k: nat, st: seq<int>)
    ensures var r := Forgotten(ss, key);
            && (NoKeyTwice(ss) ==> NoKeyTwice(r))
            && (Holds(r, now, k, st) <==> k != key && Holds(ss, now, k, st))
  {
    var r := Forgotten(ss, key);
    if k != key && Holds(ss, now, k, st) {
      var i :| 0 <= i < |ss| && Live(now, ss[i]) && ss[i].key == k && ss[i].state == st;
      assert r[i] == ss[i];
    }
    if Holds(r, now, k, st) {
      var i :| 0 <= i < |r| && Live(now, r[i]) && r[i].key == k && r[i].state == st;
      assert r[i] == ss[i];
    }
  }

  /**
   What is sent on, before shaping, is the merge of the live sources and nothing else: each value is
   at rest or some live source's, and no live source exceeds it.
   */
  lemma MergeOfLiveSources(ss: seq<Source>, now: nat, i: nat)
    requires TableOk(ss) && i < STATE_COUNT
    ensures var v := MergeAll(LiveStates(ss, now))[i];
            && (v == 0 || exists key, st :: |st| == STATE_COUNT && Holds(ss, now, key, st) && st[i] == v)
            && (forall key, st :: Holds(ss, now, key, st) && |st| == STATE_COUNT ==>
                  if IsAxis(i) then AbsInt(st[i]) <= AbsInt(v) else st[i] <= v)
  {
    var sts := LiveStates(ss, now);
    MergeAllMerges(sts);
    var v := MergeAll(sts)[i];
    assert MergesAt(i, v, sts);
    if v != 0 {
      var k :| 0 <= k < |sts| && sts[k][i] == v;
      LiveStatesAre(ss, now, sts[k]);
    }
    forall key, st | Holds(ss, now, key, st) && |st| == STATE_COUNT
      ensures if IsAxis(i) then AbsInt(st[i]) <= AbsInt(v) else st[i] <= v
    {
      LiveStatesAre(ss, now, st);
      var k :| 0 <= k < |sts| && sts[k] == st;
      assert sts[k][i] == st[i];
    }
  }

  // ------------------------------------------------------------------ the slots themselves

  class Bridge {
    const sources: array<Source>
    var profile: Profile

    ghost predicate Valid()
      reads this, sources
    {
      TableOk(sources[..]) && NoKeyTwice(sources[..])
    }

    constructor ()
      ensures Valid() && fresh(sources) && profile == NEUTRAL
    {
      profile := NEUTRAL;
      sources := new Source[MAX_SOURCES](_ => NO_SOURCE);
    }

    /** Adds one source to the merge so far. */
    method Accumulate(merged: array<int>, st: seq<int>)
      requires merged.Length == |st| == STATE_COUNT
      modifies merged
      ensures merged[..] == MergeInto(old(merged[..]), st)
    {
      ghost var acc := merged[..];
      for i := 0 to STATE_COUNT
        invariant forall j :: 0 <= j < STATE_COUNT ==> merged[j] == if j < i then Fold(j, acc[j], st[j]) else acc[j]
      {
        var v := st[i];
        if IsAxis(i) {
          if AbsInt(v) > AbsInt(merged[i]) {
            merged[i] := v;
          }
        } else if v > merged[i] {
          merged[i] := v;
        }
      }
    }

    /** One slot's turn: merged if it is live, given up if it has been silent too long. */
    method MergeSlot(s: nat, now: nat, merged: array<int>)
      requires sources.Length == MAX_SOURCES && s < MAX_SOURCES
      requires |sources[s].state| == STATE_COUNT && merged.Length == STATE_COUNT
      modifies sources, merged
      ensures sources[..] == old(sources[..])[s := PurgedSource(old(sources[s]), now)]
      ensures merged[..] == if Live(now, old(sources[s])) then MergeInto(old(merged[..]), old(sources[s]).state)
                            else old(merged[..])
    {
      hide MergeInto;
      if sources[s].inUse {
        if (now - sources[s].last) % TICKS > TIMEOUT_MS {
          sources[s] := sources[s].(inUse := false);
        } else {
          Accumulate(merged, sources[s].state);
        }
      }
    }

    /** Merges the live sources and gives up the silent ones. */
    method Combine(now: nat, merged: array<int>)
      requires Valid() && merged.Length == STATE_COUNT
      modifies sources, merged
      ensures Valid() && sources[..] == Purged(old(sources[..]), now)
      ensures merged[..] == MergeAll(LiveStates(old(sources[..]), now))
    {
      hide MergeInto, MergeAll, LiveStates, PurgedSource, NoKeyTwice;
      ghost var ss := sources[..];
      forall i | 0 <= i < STATE_COUNT {
        merged[i] := 0;
      }
      NothingLive(now);
      assert ss[..0] == [];
      assert merged[..] == seq(STATE_COUNT, _ => 0);
      for s := 0 to MAX_SOURCES
        invariant forall j :: 0 <= j < MAX_SOURCES ==>
                    sources[j] == if j < s then PurgedSource(ss[j], now) else ss[j]
        invariant merged[..] == MergeAll(LiveStates(ss[..s], now))
      {
        MergeOneMore(ss, now, s);
        MergeSlot(s, now, merged);
        assert forall j :: 0 <= j < MAX_SOURCES ==> sources[j] == sources[..][j];
      }
      assert ss[..MAX_SOURCES] == ss;
      assert sources[..] == Purged(ss, now);
      PurgedKeeps(ss, now);
    }

    /** Merges, then applies the one output calibration; left and right are the merged stick lengths. */
    method Recombine(now: nat, left: real, right: real) returns (shaped: array<int>)
      requires Valid() && Lengths(MergeAll(LiveStates(sources[..], now)), left, right)
      modifies sources
      ensures Valid() && sources[..] == Purged(old(sources[..]), now)
      ensures fresh(shaped)
      ensures shaped[..] == ShapedState(profile, MergeAll(LiveStates(old(sources[..]), now)), left, right)
    {
      hide ShapedState, MergeAll, Purged;
      var merged := new int[STATE_COUNT];
      Combine(now, merged);
      shaped := new int[STATE_COUNT];
      ShapeInto(profile, merged, left, right, shaped);
    }

    /** A source reports its state; the whole table is merged again. */
    method Update(key: nat, state: seq<int>, now: nat, left: real, right: real) returns (shaped: array<int>)
      requires Valid() && |state| == STATE_COUNT && now < TICKS
      requires Lengths(MergeAll(LiveStates(Updated(sources[..], key, now, state), now)), left, right)
      modifies sources
      ensures Valid() && fresh(shaped)
      ensures var ss := Updated(old(sources[..]), key, now, state);
              sources[..] == Purged(ss, now)
              && TableOk(ss)
              && shaped[..] == ShapedState(profile, MergeAll(LiveStates(ss, now)), left, right)
    {
      hide ShapedState, MergeAll, Purged, LiveStates;
      ghost var ss := sources[..];
      var slot: nat, free: nat, i: nat := MAX_SOURCES, MAX_SOURCES, 0;
      while i < MAX_SOURCES && slot == MAX_SOURCES
        invariant i <= MAX_SOURCES
        invariant slot != MAX_SOURCES ==> slot < MAX_SOURCES && slot == OwnSlot(ss, key)
        invariant slot == MAX_SOURCES ==>
                    forall j :: 0 <= j < i ==> !(ss[j].inUse && ss[j].key == key)
        invariant free == MAX_SOURCES ==> forall j :: 0 <= j < i ==> ss[j].inUse
        invariant free != MAX_SOURCES ==> free < i && !ss[free].inUse && forall j :: 0 <= j < free ==> ss[j].inUse
        decreases MAX_SOURCES - i, if slot == MAX_SOURCES then 1 else 0
      {
        if sources[i].inUse && sources[i].key == key {
          slot := i;
        } else {
          if !sources[i].inUse && free == MAX_SOURCES {
            free := i;
          }
          i := i + 1;
        }
      }
      if slot == MAX_SOURCES {
        assert OwnSlot(ss, key) == MAX_SOURCES && FreeSlot(ss) == free;
        slot := free;
      }
      ghost var p := Place(ss, key);
      assert p == if slot < MAX_SOURCES then Some(slot) else None;
      if slot < MAX_SOURCES {
        sources[slot] := Source(true, key, now, state);
      }
      assert sources[..] == Updated(ss, key, now, state);
      UpdateMeans(ss, key, now, state, key, state);
      shaped := Recombine(now, left, right);
    }

    /** A source goes away; whatever it was holding is released at once. */
    method Forget(key: nat, now: nat, left: real, right: real) returns (shaped: array<int>)
      requires Valid() && Lengths(MergeAll(LiveStates(Forgotten(sources[..], key), now)), left, right)
      modifies sources
      ensures Valid() && fresh(shaped)
      ensures var ss := Forgotten(old(sources[..]), key);
              sources[..] == Purged(ss, now)
              && TableOk(ss)
              && shaped[..] == ShapedState(profile, MergeAll(LiveStates(ss, now)), left, right)
    {
      hide ShapedState, MergeAll, Purged, LiveStates;
      ghost var ss := sources[..];
      for i := 0 to MAX_SOURCES
        invariant forall j :: 0 <= j < MAX_SOURCES ==>
                    sources[j] == if j < i then Forgotten(ss, key)[j] else ss[j]
      {
        if sources[i].inUse && sources[i].key == key {
          sources[i] := sources[i].(inUse := false);
        }
      }
      assert sources[..] == Forgotten(ss, key);
      ForgetMeans(ss, key, now, key, []);
      shaped := Recombine(now, left, right);
    }

    /** A new calibration takes effect at once, on whatever is held. */
    method SetShaping(p: Profile, now: nat, left: real, right: real) returns (shaped: array<int>)
      requires Valid() && Lengths(MergeAll(LiveStates(sources[..], now)), left, right)
      modifies this, sources
      ensures Valid() && fresh(shaped) && profile == p
      ensures sources[..] == Purged(old(sources[..]), now)
      ensures shaped[..] == ShapedState(p, MergeAll(LiveStates(old(sources[..]), now)), left, right)
    {
      hide ShapedState, MergeAll, Purged;
      profile := p;
      shaped := Recombine(now, left, right);
    }
  }

  lemma NothingLive(now: nat)
    ensures MergeAll(LiveStates([], now)) == seq(STATE_COUNT, _ => 0)
  {
  }

  lemma MergeOneMore(ss: seq<Source>, now: nat, s: nat)
    requires s < |ss| && forall i :: 0 <= i < |ss| ==> |ss[i].state| == STATE_COUNT
    ensures MergeAll(LiveStates(ss[..s + 1], now))
            == if Live(now, ss[s]) then MergeInto(MergeAll(LiveStates(ss[..s], now)), ss[s].state)
               else MergeAll(LiveStates(ss[..s], now))
  {
    hide MergeInto;
    assert ss[..s + 1][..s] == ss[..s] && ss[..s + 1][s] == ss[s];
    var before := LiveStates(ss[..s], now);
    assert (before + [ss[s].state])[..|before|] == before;
  }

  lemma PurgedKeeps(ss: seq<Source>, now: nat)
    requires TableOk(ss) && NoKeyTwice(ss)
    ensures TableOk(Purged(ss, now)) && NoKeyTwice(Purged(ss, now))
  {
  }

  // ------------------------------------------------------------------ the second stage

  function ClampReport(v: int): int {
    ClampInt(v, -100, 100)
  }

  /** A value in range is reported as it is, any other as the nearest that is. */
  lemma ReportedInRange(v: int)
    ensures var r := ClampReport(v);
            && -100 <= r <= 100
            && (-100 <= v <= 100 ==> r == v) && (v > 100 ==> r == 100) && (v < -100 ==> r == -100)
  {
  }

  /** The adapter's report: the bridge's state merged with the pad in its own port. */
  method MergePad(latest: array<int>, pad: array<int>) returns (report: array<int>)
    requires latest.Length == STATE_COUNT && pad.Length == STATE_COUNT
    ensures fresh(report) && report.Length == STATE_COUNT
    ensures forall i :: 0 <= i < STATE_COUNT ==> report[i] == ClampReport(MergeInto(latest[..], pad[..])[i])
  {
    report := new int[STATE_COUNT];
    for i := 0 to STATE_COUNT
      invariant forall j :: 0 <= j < i ==> report[j] == ClampReport(Fold(j, latest[j], pad[j]))
    {
      var v, own := latest[i], pad[i];
      if IsAxis(i) {
        if AbsInt(own) > AbsInt(v) {
          v := own;
        }
      } else if own > v {
        v := own;
      }
      report[i] := ClampReport(v);
    }
  }

  /**
   Merging in two stages is merging once: the report is the merge of everything in the adapter's own
   table -- in use, the bridge's one shaped state -- and the pad, whichever is taken first.
   */
  lemma TwoStagesAreOne(table: seq<seq<int>>, pad: seq<int>, i: nat)
    requires States(table) && |pad| == STATE_COUNT && i < STATE_COUNT
    ensures var two := MergeInto(MergeAll(table), pad)[i];
            && MergesAt(i, two, table + [pad])
            && AbsInt(two) == AbsInt(MergeAll([pad] + table)[i])
            && (!IsAxis(i) ==> two == MergeAll([pad] + table)[i])
  {
    var all, other := table + [pad], [pad] + table;
    assert all[..|table|] == table;
    MergeAllMerges(all);
    assert forall k :: 0 <= k < |table| ==> other[k + 1] == table[k] == all[k];
    assert other[0] == pad == all[|table|];
    OrderDoesNotMatter(all, other, i);
  }
}
