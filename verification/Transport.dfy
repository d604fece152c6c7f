/**
 The transport over whole runs: every step of the accept thread and of the threads that deliver
 media, in any order, with any answers from the sockets.
 */
module Transport {
  import opened Bytes
  import opened Wire
  import opened ClientModel
  import opened StreamModel
  import opened Framing

  datatype Event =
    | Media(m: Message, slot: Option<nat>, filter: AudioFilter, envs: seq<Env>)
    | StreamShape(stream: nat, width: nat, height: nat, envs: seq<Env>)
    | Settings(stream: nat, width: nat, height: nat, fps: nat, kbps: nat, mjpeg: byte, envs: seq<Env>)
    | BrowserArrives(control: bool, now: nat, net: seq<int>)
    | NativeArrives(door: Door, peer: nat, now: nat, net: seq<int>)
    | NativeBytes(i: nat, data: seq<byte>, now: nat, answer: bool)
    | BrowserBytes(i: nat, data: seq<byte>, capacity: nat, now: nat)
    | BrowserPinged(i: nat, payload: seq<byte>, now: nat)
    | Closed(i: nat)
    | Nothing(i: nat, now: nat)
    | DemandTaken
    | DrcAvailable(available: bool)
    | Resized(width: nat, height: nat)

  /** When the transport can take this step at all. */
  predicate Enabled(s: Stream, e: Event)
    requires Shape(s)
  {
    match e
    case Media(m, slot, _, envs) =>
      |envs| == MAX_CLIENTS && (slot.Some? ==> slot.value < STREAM_COUNT) && (m.kind == MSG_VIDEO ==> slot.Some?)
    case StreamShape(slot, _, _, envs) => |envs| == MAX_CLIENTS && slot < STREAM_COUNT
    case Settings(slot, _, _, _, _, _, envs) => |envs| == MAX_CLIENTS && slot < STREAM_COUNT
    case NativeBytes(i, data, _, _) =>
      i < MAX_CLIENTS && s.clients[i].seat.used && !s.clients[i].seat.isWs
      && 0 < |data| <= RX_CAPACITY - |s.clients[i].rx|
    case BrowserBytes(i, data, capacity, _) =>
      i < MAX_CLIENTS && s.clients[i].seat.used && s.clients[i].seat.isWs
      && HEADER_SIZE <= capacity && |s.clients[i].rx| + |data| <= capacity
    case BrowserPinged(i, payload, _) =>
      i < MAX_CLIENTS && s.clients[i].seat.used && s.clients[i].seat.isWs && |payload| <= RX_CAPACITY
    case Closed(i) => i < MAX_CLIENTS
    case Nothing(i, _) => i < MAX_CLIENTS && s.clients[i].seat.used
    case _ => true
  }

  function Step(s: Stream, e: Event): (r: Stream)
    requires Shape(s) && Enabled(s, e)
    ensures Shape(r)
  {
    match e
    case Media(m, slot, filter, envs) => Broadcast(s, m, slot, filter, envs)
    case StreamShape(slot, w, h, envs) => AnnounceStream(s, slot, w, h, envs)
    case Settings(slot, w, h, fps, kbps, mjpeg, envs) => AnnounceShared(s, slot, w, h, fps, kbps, mjpeg, envs)
    case BrowserArrives(control, now, net) => Adopt(s, control, now, net).0
    case NativeArrives(door, peer, now, net) => Accept(s, door, peer, now, net)
    case NativeBytes(i, data, now, answer) => Receive(s, i, data, now, answer)
    case BrowserBytes(i, data, capacity, now) => BrowserData(s, i, data, capacity, now)
    case BrowserPinged(i, payload, now) => Ponged(s, i, payload, now)
    case Closed(i) => Drop(s, i)
    case Nothing(i, now) => Quiet(s, i, now)
    case DemandTaken => s.(dirty := false)
    case DrcAvailable(b) => s.(drcAvailable := b)
    case Resized(w, h) => s.(width := w, height := h)
  }
}
