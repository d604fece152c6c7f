/**
 Receiving from a native client: however the network cuts the byte stream, the messages acted on
 are the parse of the whole stream.
 */
module Reassembly {
  import opened Bytes
  import opened Wire
  import opened ClientModel
  import opened StreamModel
  import opened Transport
  import opened Invariant

  datatype Link = Greeting | Open | Shut

  /** The reading of a byte stream: how far the conversation got, what was said, what is left over. */
  datatype Digest = Digest(link: Link, said: seq<Message>, rest: seq<byte>)

  /** Every complete message at the front of b, up to the first that is too big. */
  function ReadMessages(b: seq<byte>): (d: Digest)
    ensures d.link.Open? || d.link.Shut?
    decreases |b|
  {
    var p := NextPiece(b, RX_CAPACITY);
    match p
    case NeedMore => Digest(Open, [], b)
    case TooBig => Digest(Shut, [], [])
    case Piece(m, used) =>
      var d := ReadMessages(b[used..]);
      d.(said := [m] + d.said)
  }

  function Read(old3ds: bool, link: Link, b: seq<byte>): Digest {
    match link
    case Shut => Digest(Shut, [], [])
    case Open => ReadMessages(b)
    case Greeting =>
      match ParseHello(old3ds, b)
      case HelloIncomplete => Digest(Greeting, [], b)
      case HelloRefused(_) => Digest(Shut, [], [])
      case HelloAccepted(n, _) => ReadMessages(b[n..])
  }

  // ------------------------------------------------------------------ independence of the cuts

  lemma PieceExtends(b: seq<byte>, more: seq<byte>)
    ensures !NextPiece(b, RX_CAPACITY).NeedMore? ==> NextPiece(b + more, RX_CAPACITY) == NextPiece(b, RX_CAPACITY)
  {
    if |b| >= HEADER_SIZE {
      assert (b + more)[4..8] == b[4..8];
      var size := FromLe32(b[4..8]);
      if |b| >= HEADER_SIZE + size {
        assert (b + more)[HEADER_SIZE..HEADER_SIZE + size] == b[HEADER_SIZE..HEADER_SIZE + size];
      }
    }
  }

  lemma HelloExtends(old3ds: bool, b: seq<byte>, more: seq<byte>)
    ensures !ParseHello(old3ds, b).HelloIncomplete? ==>
              ParseHello(old3ds, b + more) == ParseHello(old3ds, b)
  {
    if |b| >= HELLO_SIZE {
      assert (b + more)[0..4] == b[0..4] && (b + more)[6..8] == b[6..8];
    }
  }

  lemma {:induction false} ReadMessagesSplit(b: seq<byte>, more: seq<byte>)
    ensures var d := ReadMessages(b);
            var e := Read(false, d.link, d.rest + more);
            ReadMessages(b + more) == Digest(e.link, d.said + e.said, e.rest)
    decreases |b|
  {
    hide NextPiece, ParseHello;
    PieceExtends(b, more);
    var p := NextPiece(b, RX_CAPACITY);
    if p.Piece? {
      assert (b + more)[p.used..] == b[p.used..] + more;
      ReadMessagesSplit(b[p.used..], more);
      var d := ReadMessages(b[p.used..]);
      var e := Read(false, d.link, d.rest + more);
      assert [p.message] + (d.said + e.said) == ([p.message] + d.said) + e.said;
    }
  }

  /** Reading part of a stream and then the rest of it is reading it all at once. */
  lemma ReadSplit(old3ds: bool, link: Link, b: seq<byte>, more: seq<byte>)
    ensures var d := Read(old3ds, link, b);
            var e := Read(old3ds, d.link, d.rest + more);
            Read(old3ds, link, b + more) == Digest(e.link, d.said + e.said, e.rest)
  {
    hide ParseHello, NextPiece;
    match link {
      case Shut =>
      case Open => ReadMessagesSplit(b, more);
      case Greeting =>
        HelloExtends(old3ds, b, more);
        var h := ParseHello(old3ds, b);
        if h.HelloAccepted? {
          assert (b + more)[h.used..] == b[h.used..] + more;
          ReadMessagesSplit(b[h.used..], more);
        }
    }
  }

  /** The pieces of a stream read one after another, as they arrive. */
  function ReadInPieces(old3ds: bool, d: Digest, chunks: seq<seq<byte>>): Digest
    decreases |chunks|
  {
    if chunks == [] then d
    else
      var e := Read(old3ds, d.link, d.rest + chunks[0]);
      ReadInPieces(old3ds, e.(said := d.said + e.said), chunks[1..])
  }

  function Joined(chunks: seq<seq<byte>>): seq<byte> {
    if chunks == [] then [] else chunks[0] + Joined(chunks[1..])
  }

  lemma {:induction false} PiecesFromAnywhere(old3ds: bool, b: seq<byte>, chunks: seq<seq<byte>>)
    ensures ReadInPieces(old3ds, Read(old3ds, Greeting, b), chunks) == Read(old3ds, Greeting, b + Joined(chunks))
    decreases |chunks|
  {
    hide Read;
    if chunks == [] {
      assert b + [] == b;
    } else {
      ReadSplit(old3ds, Greeting, b, chunks[0]);
      PiecesFromAnywhere(old3ds, b + chunks[0], chunks[1..]);
      assert (b + chunks[0]) + Joined(chunks[1..]) == b + Joined(chunks);
    }
  }

  /** Two ways of cutting the same stream lead to the same messages and the same leftover. */
  lemma CutsDoNotMatter(old3ds: bool, a: seq<seq<byte>>, b: seq<seq<byte>>)
    requires Joined(a) == Joined(b)
    ensures var start := Digest(Greeting, [], []);
            ReadInPieces(old3ds, start, a) == ReadInPieces(old3ds, start, b)
  {
    assert Read(old3ds, Greeting, []) == Digest(Greeting, [], []);
    PiecesFromAnywhere(old3ds, [], a);
    PiecesFromAnywhere(old3ds, [], b);
  }

  /** What is left over is always shorter than the buffer, so the next read has room. */
  lemma {:induction false} LeftoverFits(old3ds: bool, link: Link, b: seq<byte>)
    ensures |Read(old3ds, link, b).rest| < RX_CAPACITY
    decreases |b|
  {
    match link {
      case Shut =>
      case Greeting =>
        var h := ParseHello(old3ds, b);
        if h.HelloAccepted? {
          LeftoverFits(old3ds, Open, b[h.used..]);
        }
      case Open =>
        var p := NextPiece(b, RX_CAPACITY);
        if p.Piece? {
          LeftoverFits(old3ds, Open, b[p.used..]);
        }
    }
  }

  // ------------------------------------------------------------------ the transport reads like that

  function LinkOf(c: Client): Link {
    if !c.seat.used then Shut else if c.seat.done then Open else Greeting
  }

  lemma DropShuts(s: Stream, i: nat)
    requires i < |s.clients|
    ensures !Drop(s, i).clients[i].seat.used
  {
  }

  /** The parts of a client that receiving depends on. */
  predicate SameLine(a: Client, b: Client) {
    b.seat.used == a.seat.used && b.seat.done == a.seat.done && b.seat.isWs == a.seat.isWs
    && b.seat.onOld3ds == a.seat.onOld3ds && b.rx == a.rx && b.received == a.received && b.heard == a.heard
  }

  lemma ToldSameLine(s: Stream, c: Client)
    requires Shape(s)
    ensures SameLine(c, Told(s, c))
  {
    hide TellGroup;
  }

  lemma SwitchSameLine(s: Stream, codec: byte, j: nat)
    requires Shape(s) && j < MAX_CLIENTS
    ensures SameLine(s.clients[j], SwitchTo(AnnouncedCodec(s, codec), MAX_CLIENTS, codec).clients[j])
  {
    hide Told;
    ToldSameLine(AnnouncedCodec(s, codec), Retuned(s.clients[j], codec, PredictiveCodec(codec)));
  }

  lemma DispatchKeepsLine(s: Stream, i: nat, m: Message, j: nat)
    requires Shape(s) && i < MAX_CLIENTS && j < MAX_CLIENTS
    ensures SameLine(s.clients[j], Dispatch(s, i, m).0.clients[j])
  {
    hide Told, SwitchTo, AnnouncedCodec;
    var c := s.clients[i];
    if m.kind == MSG_CODEC && c.seat.onOld3ds && WantsOld3dsCodec(s, m) {
      SwitchSameLine(s, m.payload[0], j);
    } else if m.kind == MSG_CODEC && !c.seat.onOld3ds && WantsCodec(s, c.seat, m) {
      ToldSameLine(s, Retuned(c, m.payload[0], c.feed.waiting));
    }
  }

  /** What a reading of its buffer does to a client that stays or goes. */
  predicate Advanced(c: Client, r: Client, d: Digest) {
    if d.link.Shut? then !r.seat.used
    else r.seat.used && r.received == c.received + d.said && r.rx == d.rest && r.heard == c.heard
         && r.seat.isWs == c.seat.isWs && r.seat.onOld3ds == c.seat.onOld3ds
         && r.seat.done == d.link.Open?
  }

  lemma PieceLine(s: Stream, i: nat, p: Piece)
    requires Shape(s) && i < MAX_CLIENTS && p.Piece? && HEADER_SIZE <= p.used <= |s.clients[i].rx|
    ensures SameLine(AfterPiece(s.clients[i], p), HandlePiece(s, i, p).clients[i])
  {
    hide Dispatch, Counts;
    DispatchKeepsLine(s, i, p.message, i);
  }

  /** The message loop acts on exactly the messages a reading of its buffer finds. */
  lemma {:induction false} MessagesRead(s: Stream, i: nat)
    requires Inv(s) && i < MAX_CLIENTS && s.clients[i].seat.used && s.clients[i].seat.done
    ensures Advanced(s.clients[i], HandleMessages(s, i, RX_CAPACITY).clients[i], ReadMessages(s.clients[i].rx))
    decreases |s.clients[i].rx|
  {
    hide ClientsOk, Browsers, ConsolesDistinct, HandlePiece, Counts, NextPiece;
    var c := s.clients[i];
    var p := NextPiece(c.rx, RX_CAPACITY);
    DropShuts(s, i);
    if p.Piece? {
      PieceInv(s, i, p);
      PieceLine(s, i, p);
      MessagesRead(HandlePiece(s, i, p), i);
      var e := ReadMessages(c.rx[p.used..]);
      assert (c.received + [p.message]) + e.said == c.received + ([p.message] + e.said);
    }
  }
}
