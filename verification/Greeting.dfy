/**
 What a client says, written down the way the protocol lays it out, is what the host understands: the
 greeting with its token, and the messages behind it.
 */
module Greeting {
  import opened Bytes
  import opened Wire
  import opened ClientModel
  import opened StreamModel
  import opened Transport
  import opened Invariant
  import opened Reassembly
  import opened ReassemblyRuns

  /** A greeting: magic, version, length of the token, capabilities, token. */
  function Written(caps: nat, token: seq<byte>): (b: seq<byte>)
    requires |token| < 256
    ensures |b| == 8 + |token|
  {
    Le32(MAGIC) + [VERSION, |token|] + Le16(caps) + token
  }

  /** Messages one behind the other, as a native client writes them. */
  function Said(ms: seq<Message>): seq<byte> {
    if ms == [] then [] else Encode(ms[0]) + Said(ms[1..])
  }

  /** A message that fits the receive buffer with its header. */
  predicate Modest(ms: seq<Message>) {
    forall i :: 0 <= i < |ms| ==> |ms[i].payload| <= 504
  }

  lemma CapsReadBack(caps: nat)
    requires caps < 0x1_0000
    ensures FromLe16(Le16(caps)) == caps
  {
  }

  /** Every greeting is understood: its capabilities, and how long it is with its token. */
  lemma GreetingReadsBack(old3ds: bool, caps: nat, token: seq<byte>, more: seq<byte>)
    requires caps < 0x1_0000 && |token| < 256
    ensures ParseHello(old3ds, Written(caps, token) + more)
            == if old3ds && caps < 0x8000 then HelloRefused(8 + |token|) else HelloAccepted(8 + |token|, caps)
  {
    var b := Written(caps, token) + more;
    Le32RoundTrip(MAGIC);
    CapsReadBack(caps);
    assert b[0..4] == Le32(MAGIC);
    assert b[6..8] == Le16(caps);
  }

  /** And no part of one is taken for a whole one. */
  lemma GreetingPartial(old3ds: bool, caps: nat, token: seq<byte>, k: nat)
    requires |token| < 256 && k < 8 + |token|
    ensures ParseHello(old3ds, Written(caps, token)[..k]) == HelloIncomplete
  {
  }

  /** Another magic number or another version is refused. */
  lemma StrangerRefused(old3ds: bool, b: seq<byte>)
    requires |b| >= 8 + 255 && (FromLe32(b[0..4]) != 0x57533243 || b[4] != 1)
    ensures ParseHello(old3ds, b).HelloRefused?
  {
  }

  lemma OnePieceReadsBack(m: Message, more: seq<byte>)
    requires |m.payload| <= 504
    ensures NextPiece(Encode(m) + more, RX_CAPACITY) == Piece(m, |Encode(m)|)
  {
    var b := Encode(m) + more;
    EncodeFields(m, more);
    assert b[HEADER_SIZE..HEADER_SIZE + |m.payload|] == m.payload;
  }

  /** A message that can never fit is not waited for. */
  lemma TooBigIsRefused(m: Message, k: nat)
    requires 504 < |m.payload| < 0x1_0000_0000 && 8 <= k <= |Encode(m)|
    ensures NextPiece(Encode(m)[..k], RX_CAPACITY) == TooBig
  {
    SizeReadsBack(m);
    hide Encode, FromLe32;
    var e := Encode(m);
    assert e[..k][4..8] == e[4..8];
  }

  lemma SizeReadsBack(m: Message)
    requires |m.payload| < 0x1_0000_0000
    ensures FromLe32(Encode(m)[4..8]) == |m.payload|
  {
    hide FromLe32, Le32;
    Le32RoundTrip(|m.payload|);
    assert Encode(m)[4..8] == Le32(|m.payload|);
  }

  lemma {:induction false} MessagesReadBack(ms: seq<Message>)
    requires Modest(ms)
    ensures ReadMessages(Said(ms)) == Digest(Open, ms, [])
    decreases |ms|
  {
    hide NextPiece, Encode;
    if ms == [] {
      NothingIsIncomplete();
    } else {
      var more := Said(ms[1..]);
      OnePieceReadsBack(ms[0], more);
      MessagesReadBack(ms[1..]);
      assert (Encode(ms[0]) + more)[|Encode(ms[0])|..] == more;
      assert [ms[0]] + ms[1..] == ms;
    }
  }

  lemma NothingIsIncomplete()
    ensures NextPiece([], RX_CAPACITY) == NeedMore
  {
  }

  /** The whole conversation: capabilities, then exactly the messages, and nothing left over. */
  lemma ConversationReadsBack(old3ds: bool, caps: nat, token: seq<byte>, ms: seq<Message>)
    requires caps < 0x1_0000 && |token| < 256 && Modest(ms) && (old3ds ==> caps >= 0x8000)
    ensures Read(old3ds, Link.Greeting, Written(caps, token) + Said(ms)) == Digest(Open, ms, [])
  {
    hide ParseHello, Written, Said, ReadMessages;
    GreetingReadsBack(old3ds, caps, token, Said(ms));
    MessagesReadBack(ms);
    var b := Written(caps, token) + Said(ms);
    assert b[8 + |token|..] == Said(ms);
  }

  /**
   After any run, a native client that has said just that, however the network cut it, is greeted, and the
   messages acted on are the ones it wrote.
   */
  lemma SaidIsActedOn(udp: bool, es: seq<Event>, r: Stream, i: nat, caps: nat, token: seq<byte>, ms: seq<Message>)
    requires Run(Initial(udp), es, r) && i < |r.clients| && r.clients[i].seat.used && !r.clients[i].seat.isWs
    requires caps < 0x1_0000 && |token| < 256 && Modest(ms)
    requires r.clients[i].seat.onOld3ds ==> caps >= 0x8000
    requires r.clients[i].heard == Written(caps, token) + Said(ms)
    ensures r.clients[i].seat.done && r.clients[i].received == ms && r.clients[i].rx == []
  {
    hide Written, Said, Read;
    ReassemblySoundAlways(udp, es, r, i);
    ConversationReadsBack(r.clients[i].seat.onOld3ds, caps, token, ms);
  }
}
