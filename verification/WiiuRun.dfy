/**
 A console that connects while its setting is off, and a setting turned on under it: the pipeline has
 settled, the console is watching, and its chain is not fed.
 */
module WiiuRun {
  import opened Bytes
  import opened Wire
  import opened ClientModel
  import opened StreamModel
  import opened Transport
  import opened Invariant
  import opened Demand
  import opened Scenes

  const CONNECT: Event := NativeArrives(WiiuDoor, 0, 0, [20] + [])
  const GREET: Event := NativeBytes(0, Salute(0), 0, true)

  const ANNOUNCE: Announcement := Announcement(1280, 720, 60, 6000, 0, ENVS, ENVS)

  const LOOKS: seq<Move> := seq(STREAM_COUNT, _ => ServeLook(ANNOUNCE))

  const MOVES: seq<Move> :=
    [Transported(CONNECT), Transported(GREET), Serve] + LOOKS + [WiiuSetting(true)]

  lemma {:induction false} JointRunJoins(j: Joint, ms: seq<Move>, m: Joint, ns: seq<Move>, r: Joint)
    requires JointShape(j) && JointRun(j, ms, m) && JointShape(m) && JointRun(m, ns, r)
    ensures JointRun(j, ms + ns, r)
    decreases |ms|
  {
    hide Demand.Moved, Possible;
    if ms == [] {
      assert ms + ns == ns;
    } else {
      assert (ms + ns)[0] == ms[0] && (ms + ns)[1..] == ms[1..] + ns;
      JointRunJoins(Demand.Moved(j, ms[0]), ms[1..], m, ns, r);
    }
  }

  lemma OneMove(j: Joint, m: Move)
    requires JointShape(j) && Possible(j, m)
    ensures JointRun(j, [m], Demand.Moved(j, m))
  {
    hide Demand.Moved, Possible;
    assert [m][1..] == [];
    assert JointRun(Demand.Moved(j, m), [], Demand.Moved(j, m));
  }

  /** Nobody is on this stream, or it may not be fed: a look changes nothing. */
  predicate Idle(j: Joint, k: nat)
    requires JointShape(j) && k < STREAM_COUNT
  {
    !j.flags.wanted[k] && (j.stream.live[k] > 0 ==> !Allowed(j.flags, k))
  }

  lemma {:induction false} LooksChangeNothing(j: Joint, n: nat)
    requires JointShape(j) && j.serving + n == STREAM_COUNT && !j.unlooked
    requires forall k :: 0 <= k < STREAM_COUNT ==> Idle(j, k)
    ensures JointRun(j, seq(n, _ => ServeLook(ANNOUNCE)), j.(serving := STREAM_COUNT))
    decreases n
  {
    hide Announced;
    var ms := seq(n, _ => ServeLook(ANNOUNCE));
    if n > 0 {
      assert ms[1..] == seq(n - 1, _ => ServeLook(ANNOUNCE));
      assert Idle(j, j.serving);
      assert j.flags.wanted[j.serving := false] == j.flags.wanted;
      var r := Demand.Moved(j, ms[0]);
      assert r == j.(serving := j.serving + 1);
      assert forall k :: 0 <= k < STREAM_COUNT && Idle(j, k) ==> Idle(r, k);
      LooksChangeNothing(r, n - 1);
    }
  }

  /** The console connects and greets: it is counted, alone. */
  lemma Begins(j: Joint) returns (r: Joint)
    requires j == Start(false, false, false)
    ensures JointRun(j, [Transported(CONNECT), Transported(GREET)], r) && JointShape(r)
    ensures r == j.(stream := r.stream) && r.stream.dirty
    ensures Watched(r.stream.clients, STREAM_WIIU)
    ensures forall k :: 0 <= k < STREAM_COUNT && r.stream.live[k] > 0 ==> k == STREAM_WIIU
  {
    hide Step, Salute, Count;
    var s0 := j.stream;
    Arrives(s0, 0, WiiuDoor, 0, [20] + []);
    var s1 := Step(s0, CONNECT);
    var ack := Greets(s1, 0, 0, []);
    var s2 := Step(s1, GREET);
    r := j.(stream := s2);
    OneMove(j, Transported(CONNECT));
    OneMove(j.(stream := s1), Transported(GREET));
    JointRunJoins(j, [Transported(CONNECT)], j.(stream := s1), [Transported(GREET)], r);
    assert [Transported(CONNECT)] + [Transported(GREET)] == [Transported(CONNECT), Transported(GREET)];
    assert OnStream(s2.clients[0].seat, STREAM_WIIU);
    forall k | 0 <= k < STREAM_COUNT
      ensures Count(s2.clients, k) > 0 <==> k == STREAM_WIIU
    {
      CountedIsThere(s2.clients, k);
      assert forall i :: 1 <= i < MAX_CLIENTS ==> s2.clients[i] == NO_CLIENT;
    }
    assert Counts(s2.clients)[STREAM_WIIU] > 0;
  }

  /** The callback runs to its end, and no chain starts: the one that is watched is not allowed. */
  lemma Serves(j: Joint) returns (r: Joint)
    requires JointShape(j) && j.flags == Start(false, false, false).flags && !j.unlooked && j.stream.dirty
    requires j.serving == STREAM_COUNT && j.applying == STREAM_COUNT
    requires forall k :: 0 <= k < STREAM_COUNT && j.stream.live[k] > 0 ==> k == STREAM_WIIU
    ensures JointRun(j, [Serve] + LOOKS, r) && JointShape(r)
    ensures Settled(r) && r.flags == j.flags && !r.unlooked && r.stream.clients == j.stream.clients
  {
    var m := Demand.Moved(j, Serve);
    OneMove(j, Serve);
    assert forall k :: 0 <= k < STREAM_COUNT ==> Idle(m, k);
    LooksChangeNothing(m, STREAM_COUNT);
    r := m.(serving := STREAM_COUNT);
    JointRunJoins(j, [Serve], m, LOOKS, r);
  }

  lemma TurnsOn(j: Joint)
    requires JointShape(j) && Settled(j) && j.flags == Start(false, false, false).flags
    ensures Possible(j, WiiuSetting(true))
    ensures var r := Demand.Moved(j, WiiuSetting(true));
            JointShape(r) && Settled(r) && r.stream == j.stream
            && Allowed(r.flags, STREAM_WIIU) && !r.flags.wanted[STREAM_WIIU]
  {
  }

  /** A run after which everything has settled, the console is watched for and allowed, and not fed. */
  lemma SettingLeavesItUnfed() returns (r: Joint)
    ensures JointRun(Start(false, false, false), MOVES, r) && JointShape(r)
    ensures Settled(r) && Watched(r.stream.clients, STREAM_WIIU) && Allowed(r.flags, STREAM_WIIU)
    ensures !r.flags.wanted[STREAM_WIIU] && !Right(r, STREAM_WIIU)
  {
    hide Initial, Watched, Demand.Moved, Possible, JointRun, Shape, Settled;
    var j := Start(false, false, false);
    var j1 := Begins(j);
    var j3 := Serves(j1);
    TurnsOn(j3);
    OneMove(j3, WiiuSetting(true));
    r := Demand.Moved(j3, WiiuSetting(true));
    var head := [Transported(CONNECT), Transported(GREET)];
    JointRunJoins(j, head, j1, [Serve] + LOOKS, j3);
    JointRunJoins(j, head + ([Serve] + LOOKS), j3, [WiiuSetting(true)], r);
    assert head + ([Serve] + LOOKS) + [WiiuSetting(true)] == MOVES;
  }
}
