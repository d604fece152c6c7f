/**
 How a client's sound reaches it. Two broadcasts and three datagram sends each pick their own
 audience; here it is shown that together they reach every client at most once, and whom they miss.
 */
module AudioRoutes {
  import opened Bytes
  import opened Wire
  import opened ClientModel
  import opened StreamModel
  import opened Transport
  import opened Invariant

  datatype Route = OpusTcp | PcmTcp | OpusUdp | PcmUdp | AdpcmUdp

  /** The audience of each send, as each of them selects it. */
  predicate Carries(c: Seat, route: Route) {
    match route
    case OpusTcp => Eligible(c, None, OpusOnly)
    case PcmTcp => Eligible(c, Some(STREAM_WIIU), PcmTcpOnly)
    case OpusUdp => c.used && c.done && c.onOld3ds && c.opusUdp && c.peer != 0
    case PcmUdp => c.used && c.done && (c.onWiiu || c.onOld3ds) && c.pcmAudio && c.pcmUdp && c.peer != 0
    case AdpcmUdp => c.used && c.done && c.onOld3ds && c.adpcmUdp && c.peer != 0
  }

  function RouteCodec(route: Route): byte {
    match route
    case OpusTcp => CODEC_OPUS
    case OpusUdp => CODEC_OPUS
    case PcmTcp => CODEC_PCM
    case PcmUdp => CODEC_PCM
    case AdpcmUdp => CODEC_OLD3DS_ADPCM
  }

  /** Whom no send reaches: a 3DS that asked for plain PCM and cannot have it by datagram, and a
      client that was promised datagrams but has no address to send them to. */
  predicate Unheard(c: Seat) {
    || (c.onOld3ds && c.pcmAudio && !c.pcmUdp)
    || (c.peer == 0 && (c.pcmUdp || c.opusUdp || c.adpcmUdp))
  }

  lemma OneRoute(c: Seat)
    requires SeatOk(c) && c.used && c.done
    ensures forall a, b :: Carries(c, a) && Carries(c, b) ==> a == b
    ensures forall a :: Carries(c, a) ==> RouteCodec(a) == AudioCodec(c)
    ensures (exists a :: Carries(c, a)) <==> !Unheard(c)
  {
    var a := if c.opusUdp then OpusUdp else if c.adpcmUdp then AdpcmUdp
             else if c.pcmUdp then PcmUdp else if c.pcmAudio then PcmTcp else OpusTcp;
    assert Carries(c, a) <==> !Unheard(c);
  }

  /**
   After any run: a greeted client is in at most one of the five audiences, that of the codec its
   handshake promised, and in one of them if and only if it is not one of the unheard.
   */
  lemma AudioArrivesOnceAlways(udp: bool, es: seq<Event>, r: Stream, i: nat)
    requires Run(Initial(udp), es, r) && i < |r.clients|
    requires r.clients[i].seat.used && r.clients[i].seat.done
    ensures var c := r.clients[i].seat;
            && (forall a, b :: Carries(c, a) && Carries(c, b) ==> a == b)
            && (forall a :: Carries(c, a) ==> RouteCodec(a) == AudioCodec(c))
            && ((exists a :: Carries(c, a)) <==> !Unheard(c))
  {
    hide Carries, Unheard, SeatOk, Counts, Browsers, ConsolesDistinct;
    InitialInv(udp);
    RunInv(Initial(udp), es, r);
    assert ClientOk(r.clients[i]);
    OneRoute(r.clients[i].seat);
  }

  /** A 3DS whose greeting asks for PCM is left without sound whenever it cannot have datagrams. */
  lemma PcmWithoutDatagramsIsUnheard(udp: bool, c: Seat, caps: nat, answer: bool)
    requires c.onOld3ds && Bit(caps, 1)
    ensures var seat := Introduced(udp, c, caps, answer);
            Unheard(seat) <==> !(udp && Bit(caps, 2)) || c.peer == 0
  {
    hide Bit;
  }
}
