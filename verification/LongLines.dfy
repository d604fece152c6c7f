/**
 The settings file again, for every text: lines of any length, with or without a last newline. The
 writer takes a line in pieces of its own buffer, the reader looks at the beginning of a line; here is
 where the writer puts a setting, and what the reader makes of the result.
 */
module LongLines {
  import opened Bytes
  import opened Config

  /** Where the writer replaces a piece, and how long that is; at the end of the text, nothing. */
  function Place(text: string, key: string): (p: (nat, nat))
    ensures p.0 + p.1 <= |text|
    decreases |text|
  {
    if text == "" then (0, 0)
    else
      var n := ChunkLength(text);
      if Sets(text[..n], key) then (0, n)
      else
        var p := Place(text[n..], key);
        (n + p.0, p.1)
  }

  function Front(text: string, key: string): string {
    text[..Place(text, key).0]
  }

  function Rest(text: string, key: string): string {
    text[Place(text, key).0 + Place(text, key).1..]
  }

  lemma {:induction false} CopiedThrough(text: string, key: string, v: string)
    ensures RewriteFrom(text, key, v, true) == text
    decreases |text|
  {
    hide Sets;
    if text != "" {
      CopiedThrough(text[ChunkLength(text)..], key, v);
    }
  }

  /** The writer puts the setting on a line of its own from there on, and copies everything else. */
  lemma {:induction false} RewriteAtPlace(text: string, key: string, v: string)
    ensures Rewrite(text, key, v) == Front(text, key) + (Setting(key, v) + "\n") + Rest(text, key)
    decreases |text|
  {
    hide Sets, Setting, Front, Rest, ChunkLength;
    var kv := Setting(key, v) + "\n";
    if text == "" {
      EmptyPlace(key);
    } else {
      var n := ChunkLength(text);
      var t := text[n..];
      if Sets(text[..n], key) {
        CopiedThrough(t, key, v);
        FirstPlace(text, key);
        assert "" + kv + t == kv + t;
      } else {
        RewriteAtPlace(t, key, v);
        LaterPlace(text, key);
        assert text[..n] + (Front(t, key) + kv + Rest(t, key)) == (text[..n] + Front(t, key)) + kv + Rest(t, key);
      }
    }
  }

  lemma EmptyPlace(key: string)
    ensures Front("", key) == "" && Rest("", key) == ""
  {
  }

  lemma FirstPlace(text: string, key: string)
    requires text != "" && Sets(text[..ChunkLength(text)], key)
    ensures Front(text, key) == "" && Rest(text, key) == text[ChunkLength(text)..]
  {
    hide Sets, ChunkLength;
  }

  lemma LaterPlace(text: string, key: string)
    requires text != "" && !Sets(text[..ChunkLength(text)], key)
    ensures var n := ChunkLength(text);
            Front(text, key) == text[..n] + Front(text[n..], key) && Rest(text, key) == Rest(text[n..], key)
  {
    hide Sets, ChunkLength;
    var n := ChunkLength(text);
    var (at, m) := Place(text[n..], key);
    Sliced(text, n, at, m);
  }

  lemma Sliced(s: string, n: nat, at: nat, m: nat)
    requires n + at + m <= |s|
    ensures s[..n + at] == s[..n] + s[n..][..at]
    ensures s[n + at..n + at + m] == s[n..][at..at + m]
    ensures s[n + at..] == s[n..][at..] && s[n + at + m..] == s[n..][at + m..]
  {
  }

  /** What follows the last newline. */
  function Open(s: string): string
    decreases |s|
  {
    var n := LineLength(s);
    if n == |s| then s else Open(s[n + 1..])
  }

  /** The ended lines. */
  function Ended(s: string): (ls: seq<string>)
    ensures forall i :: 0 <= i < |ls| ==> !HasChar(ls[i], '\n')
    decreases |s|
  {
    var n := LineLength(s);
    if n == |s| then [] else [s[..n]] + Ended(s[n + 1..])
  }

  lemma {:induction false} EndedAndOpen(s: string)
    ensures s == File(Ended(s)) + Open(s) && !HasChar(Open(s), '\n')
    decreases |s|
  {
    hide HasChar, LineLength, File;
    var n := LineLength(s);
    if n == |s| {
      NothingBefore(s);
    } else {
      var t := s[n + 1..];
      EndedAndOpen(t);
      assert s == s[..n] + "\n" + t;
      FileCons(s[..n], Ended(t), Open(t));
    }
  }

  lemma NothingBefore(s: string)
    requires LineLength(s) == |s|
    ensures s == File([]) + s && !HasChar(s, '\n')
  {
  }

  /** Reading past ended lines. */
  lemma {:induction false} LookupThrough(ls: seq<string>, rest: string, key: string, size: nat, found: string)
    requires (forall i :: 0 <= i < |ls| ==> !HasChar(ls[i], '\n')) && size > 0
    ensures LookupFrom(File(ls) + rest, key, size, found)
            == LookupFrom(rest, key, size, LookupLines(ls, key, size, found))
    decreases |ls|
  {
    hide Heard, HasChar;
    if ls == [] {
      assert File(ls) + rest == rest;
    } else {
      var more := File(ls[1..]) + rest;
      assert File(ls) + rest == ls[0] + "\n" + more;
      FirstLine(ls[0], more);
      LookupThrough(ls[1..], rest, key, size, Heard(ls[0], key, size, found));
    }
  }

  function Found(v: string): Option<string> {
    if v == "" then None else Some(v)
  }

  /**
   What any key reads as after a set, in any file: the ended lines before the place, then the open text
   before it with the setting glued on, then the rest.
   */
  lemma ReadingAfterSet(text: string, key: string, v: string, other: string, size: nat)
    requires KeyOk(key) && Token(v) && size > 0
    ensures var front := Front(text, key);
            Lookup(Rewrite(text, key, v), other, size)
            == Found(LookupFrom(Rest(text, key), other, size,
                                Heard(Open(front) + Setting(key, v), other, size,
                                      LookupLines(Ended(front), other, size, ""))))
  {
    hide KeyOk, Token, LookupFrom, LookupLines, Heard, Rewrite, Rest, Front, HasChar, Ended, Open, Setting, File;
    var front, rest := Front(text, key), Rest(text, key);
    var ls, last := Ended(front), Open(front);
    var g := last + Setting(key, v);
    RewriteAtPlace(text, key, v);
    EndedAndOpen(front);
    GluedLine(ls, last, Setting(key, v), rest);
    GluedHasNoNewline(last, key, v);
    LookupThrough(ls + [g], rest, other, size, "");
    LookupAppend(ls, g, other, size, "");
  }

  lemma GluedLine(ls: seq<string>, last: string, kv: string, rest: string)
    ensures (File(ls) + last) + (kv + "\n") + rest == File(ls + [last + kv]) + rest
  {
    FileSnoc(ls, last + kv);
    assert (File(ls) + last) + (kv + "\n") == File(ls) + (last + kv + "\n");
  }

  lemma {:induction false} FileSnoc(ls: seq<string>, l: string)
    ensures File(ls + [l]) == File(ls) + (l + "\n")
    decreases |ls|
  {
    if ls == [] {
      assert ls + [l] == [l];
      OneLine(l);
      assert File([l]) + "" == File([l]);
    } else {
      assert (ls + [l])[1..] == ls[1..] + [l];
      FileSnoc(ls[1..], l);
      assert ls[0] + "\n" + (File(ls[1..]) + (l + "\n")) == (ls[0] + "\n" + File(ls[1..])) + (l + "\n");
    }
  }

  lemma GluedHasNoNewline(last: string, key: string, v: string)
    requires KeyOk(key) && Token(v) && !HasChar(last, '\n')
    ensures !HasChar(last + Setting(key, v), '\n')
  {
    SettingIsLine(key, v);
    HasCharJoined(last, Setting(key, v), '\n');
  }

  // ------------------------------------------------------------------ nothing before the place says anything

  /** The writer finds the key in none of its pieces. */
  predicate NoPiece(s: string, key: string)
    decreases |s|
  {
    s == "" || (!Sets(s[..ChunkLength(s)], key) && NoPiece(s[ChunkLength(s)..], key))
  }

  lemma {:induction false} FrontHasNoPiece(text: string, key: string)
    ensures NoPiece(Front(text, key), key)
    decreases |text|
  {
    hide Sets;
    if text != "" && !Sets(text[..ChunkLength(text)], key) {
      var n := ChunkLength(text);
      var t := text[n..];
      FrontHasNoPiece(t, key);
      var front := Front(text, key);
      assert front == text[..n] + Front(t, key);
      SamePiece(text, Place(text, key).0);
      assert front[..n] == text[..n] && front[n..] == Front(t, key);
    }
  }

  /** Cutting a text off behind its first piece leaves that piece. */
  lemma SamePiece(text: string, at: nat)
    requires text != "" && ChunkLength(text) <= at <= |text|
    ensures text[..at] != "" && ChunkLength(text[..at]) == ChunkLength(text)
  {
    SameLine(text, at);
  }

  lemma {:induction false} SameLine(text: string, at: nat)
    requires at <= |text|
    ensures LineLength(text[..at]) == if LineLength(text) < at then LineLength(text) else at
    decreases |text|
  {
    if text != "" && at > 0 && text[0] != '\n' {
      assert text[..at][1..] == text[1..][..at - 1];
      SameLine(text[1..], at - 1);
    }
  }

  /** What the reader finds at the start of a line, the writer finds in its first piece. */
  lemma PieceHolds(line: string, piece: string, key: string)
    requires Cut(line, LOOKUP_MAX) <= piece && Value(line, key).Some?
    ensures Sets(piece, key)
  {
    hide SkipBlanks;
    var start := Cut(line, LOOKUP_MAX);
    SkipBlanksOfPrefix(start, piece[|start|..]);
    assert piece == start + piece[|start|..];
    PrefixWithin(key + "=", SkipBlanks(start), piece[|start|..]);
  }

  /** The pieces of one line, and then those of the rest. */
  lemma {:induction false} SkipLine(l: string, rest: string, key: string)
    requires !HasChar(l, '\n') && NoPiece(l + "\n" + rest, key)
    ensures NoPiece(rest, key)
    ensures Value(l, key) == None
    decreases |l|
  {
    hide Value, Sets;
    var s := l + "\n" + rest;
    LineLengthOf(l, rest);
    var n := ChunkLength(s);
    if Value(l, key).Some? {
      assert Cut(l, LOOKUP_MAX) == s[..|Cut(l, LOOKUP_MAX)|] <= s[..n];
      PieceHolds(l, s[..n], key);
    }
    PiecesGo(l, rest, key);
  }

  lemma {:induction false} PiecesGo(l: string, rest: string, key: string)
    requires !HasChar(l, '\n') && NoPiece(l + "\n" + rest, key)
    ensures NoPiece(rest, key)
    decreases |l|
  {
    hide Sets;
    var s := l + "\n" + rest;
    LineLengthOf(l, rest);
    var n := ChunkLength(s);
    if n == |l| + 1 {
      assert s[n..] == rest;
    } else {
      var t := l[n..];
      assert s[n..] == t + "\n" + rest;
      assert forall i :: 0 <= i < |t| ==> t[i] == l[n + i];
      PiecesGo(t, rest, key);
    }
  }

  lemma {:induction false} LinesSayNothing(ls: seq<string>, last: string, key: string)
    requires (forall i :: 0 <= i < |ls| ==> !HasChar(ls[i], '\n')) && NoPiece(File(ls) + last, key)
    ensures !Says(ls, key) && NoPiece(last, key)
    decreases |ls|
  {
    hide Value, Sets, HasChar, NoPiece;
    if ls == [] {
      assert File(ls) + last == last;
    } else {
      var more := File(ls[1..]) + last;
      assert File(ls) + last == ls[0] + "\n" + more;
      SkipLine(ls[0], more, key);
      LinesSayNothing(ls[1..], last, key);
      assert forall i :: 1 <= i < |ls| ==> ls[1..][i - 1] == ls[i];
    }
  }

  /** Text glued behind an open line that the writer did not recognise is not recognised by the reader. */
  lemma GluedSaysNothing(last: string, key: string, v: string)
    requires KeyOk(key) && !HasChar(last, '\n') && NoPiece(last, key) && SkipBlanks(last) != ""
    ensures Value(last + Setting(key, v), key) == None
  {
    hide Value, KeyOk, SkipBlanks, NoPiece, Setting, HasChar;
    var g := last + Setting(key, v);
    ReaderAgreesWithWriter(g, key);
    GluedSets(last, key, v, key);
    LongerThan(SkipBlanks(last), key);
    if Value(g, key).Some? {
      OpenPiece(last, key);
      ValueWithin(last, g, key);
      PieceHolds(last, last[..ChunkLength(last)], key);
    }
  }

  lemma OpenPiece(last: string, key: string)
    requires !HasChar(last, '\n') && NoPiece(last, key) && SkipBlanks(last) != ""
    ensures last != "" && !Sets(last[..ChunkLength(last)], key)
    ensures Cut(last, LOOKUP_MAX) <= last[..ChunkLength(last)]
  {
    NoNewline(last);
  }

  /** A key the reader sees in a longer line, of which this one sets the key, it sees in this one. */
  lemma ValueWithin(last: string, g: string, key: string)
    requires last <= g && Sets(last, key) && Value(g, key).Some?
    ensures Value(last, key).Some?
  {
    if |last| <= LOOKUP_MAX {
      assert Cut(last, LOOKUP_MAX) == last;
      StartsAlike(last, Cut(g, LOOKUP_MAX));
    } else {
      assert Cut(last, LOOKUP_MAX) == Cut(g, LOOKUP_MAX);
    }
  }

  lemma StartsAlike(a: string, b: string)
    requires a <= b && SkipBlanks(a) != ""
    ensures SkipBlanks(b) != "" && SkipBlanks(b)[0] == SkipBlanks(a)[0]
  {
    SkipBlanksOfPrefix(a, b[|a|..]);
    assert b == a + b[|a|..];
  }

  /**
   In any file at all: a key that has been set reads as what the text behind its place says about it, or
   else as the value set -- unless it had to be put behind text on a line that is not blank, when it
   reads as nothing.
   */
  lemma GetAfterSetAlways(text: string, key: string, v: string, size: nat)
    requires KeyOk(key) && Token(v) && |key| + 1 + |v| <= LOOKUP_MAX && |v| < size
    requires var last := Open(Front(text, key));
             SkipBlanks(last) == "" ==> |last| + |key| + 1 + |v| <= LOOKUP_MAX
    ensures Lookup(Rewrite(text, key, v), key, size)
            == Found(LookupFrom(Rest(text, key), key, size,
                                if SkipBlanks(Open(Front(text, key))) == "" then v else ""))
  {
    hide KeyOk, Token, LookupFrom, Value, Rewrite, Rest, Front, HasChar, Ended, Open, Setting, File, NoPiece,
         SkipBlanks, LookupLines;
    var front := Front(text, key);
    var ls, last := Ended(front), Open(front);
    ReadingAfterSet(text, key, v, key, size);
    EndedAndOpen(front);
    FrontHasNoPiece(text, key);
    LinesSayNothing(ls, last, key);
    LookupFound(ls, key, size, "", "");
    if SkipBlanks(last) == "" {
      AllBlank(last);
      TokenReadsBack(key, v, last);
    } else {
      GluedSaysNothing(last, key, v);
    }
  }

  /** The text behind the place decides only if one of its lines says something about the key. */
  lemma RestDecides(rest: string, key: string, size: nat, v: string, w: string)
    requires size > 0
    ensures if Says(Lines(Ended(rest), Open(rest)), key)
            then LookupFrom(rest, key, size, v) == LookupFrom(rest, key, size, w)
            else LookupFrom(rest, key, size, v) == v
  {
    hide Ended, Open, HasChar, LookupFrom;
    EndedAndOpen(rest);
    LookupIsByLine(Ended(rest), Open(rest), key, size, v);
    LookupIsByLine(Ended(rest), Open(rest), key, size, w);
    LookupFound(Lines(Ended(rest), Open(rest)), key, size, v, w);
  }

  // ------------------------------------------------------------------ other keys

  /** The piece that is replaced is a whole line, or the key is new. */
  predicate WholeLine(text: string, key: string) {
    var (at, n) := Place(text, key);
    n > 0 ==> Open(Front(text, key)) == ""
              && (text[at + n - 1] == '\n' || at + n == |text|)
  }

  /**
   Whatever the lengths of the other lines, replacing a whole line changes the reading of no other key,
   and neither does a new key on a line of its own.
   */
  lemma WholeLineTouchesNoOtherKey(text: string, key: string, v: string, other: string, size: nat)
    requires KeyOk(key) && KeyOk(other) && key != other && Token(v) && size > 0
    requires WholeLine(text, key) && Open(Front(text, key)) == ""
    ensures Lookup(Rewrite(text, key, v), other, size) == Lookup(text, other, size)
  {
    hide KeyOk, Token, LookupFrom, Value, Rewrite, HasChar, Ended, Open, Setting, File, Sets, LookupLines, Lookup;
    var front, rest := Front(text, key), Rest(text, key);
    var (at, n) := Place(text, key);
    var ls := Ended(front);
    var before := LookupLines(ls, other, size, "");
    ReadingAfterSet(text, key, v, other, size);
    EndedAndOpen(front);
    assert "" + Setting(key, v) == Setting(key, v);
    SettingSets(key, v);
    SetsNothingElse(Setting(key, v), key, other);
    var behind := text[at..];
    assert text == front + behind && front + "" == front;
    LookupThrough(ls, behind, other, size, "");
    assert File(ls) + "" == File(ls);
    LookupIs(text, other, size);
    if n > 0 {
      PlaceSets(text, key);
      assert behind[..n] == text[at..at + n] && behind[n..] == rest;
      LineGone(behind, n, key, other, size, before);
    } else {
      PlaceAtEnd(text, key);
    }
  }

  /**
   A new key glued onto an open line changes, exactly, the reading of the key that line sets (unless a
   carriage return ended its value) and of the key that the two spell together.
   */
  lemma GluedTouchesOthers(text: string, key: string, v: string, other: string, size: nat)
    requires KeyOk(key) && KeyOk(other) && key != other && Token(v)
    requires Place(text, key).1 == 0 && Open(text) != ""
    requires |Open(text)| + |key| + 1 + |v| <= LOOKUP_MAX && |Open(text)| + |key| + 1 + |v| < size
    ensures var last := Open(text);
            var before, after := Lookup(text, other, size), Lookup(Rewrite(text, key, v), other, size);
            if Sets(last, other) && !HasChar(last, '\r') then
              after == Some(After(last, other) + Setting(key, v)) && after != before
            else if other == SkipBlanks(last) + key then after == Some(v)
            else after == before
  {
    hide KeyOk, Token, LookupFrom, Value, Rewrite, HasChar, Ended, Open, Setting, File, Sets, LookupLines, Lookup,
         SkipBlanks, After, Place;
    var ls, last := Ended(text), Open(text);
    PlaceAtEnd(text, key);
    assert Front(text, key) == text && Rest(text, key) == "";
    ReadingAfterSet(text, key, v, other, size);
    EndedAndOpen(text);
    LookupThrough(ls, last, other, size, "");
    LookupIs(text, other, size);
    var found := LookupLines(ls, other, size, "");
    OneMoreLine(last, other, size, found);
    NoMoreLines(other, size, Heard(last + Setting(key, v), other, size, found));
    OpenIsLine(last);
    GluedHeard(last, key, v, other, size, found);
  }

  lemma NoMoreLines(key: string, size: nat, found: string)
    requires size > 0
    ensures LookupFrom("", key, size, found) == found
  {
  }

  lemma OneMoreLine(last: string, key: string, size: nat, found: string)
    requires last != "" && !HasChar(last, '\n') && size > 0
    ensures LookupFrom(last, key, size, found) == Heard(last, key, size, found)
  {
    hide Heard, HasChar;
    NoNewline(last);
    assert last[..|last|] == last && AfterLine(last) == "";
    NoMoreLines(key, size, Heard(last, key, size, found));
  }

  lemma OpenIsLine(last: string)
    requires !HasChar(last, '\n') && |last| <= LOOKUP_MAX
    ensures Line(last)
  {
  }

  lemma LookupIs(text: string, key: string, size: nat)
    requires size > 0
    ensures Lookup(text, key, size) == Found(LookupFrom(text, key, size, ""))
  {
  }

  lemma {:induction false} PlaceSets(text: string, key: string)
    requires Place(text, key).1 > 0
    ensures var (at, n) := Place(text, key);
            at < |text| && n == ChunkLength(text[at..]) && Sets(text[at..at + n], key)
    decreases |text|
  {
    hide Sets, ChunkLength;
    var n := ChunkLength(text);
    if Sets(text[..n], key) {
      assert text[0..] == text && text[0..0 + n] == text[..n];
    } else {
      var t := text[n..];
      PlaceSets(t, key);
      var (at, m) := Place(t, key);
      Sliced(text, n, at, m);
    }
  }

  lemma {:induction false} PlaceAtEnd(text: string, key: string)
    requires Place(text, key).1 == 0
    ensures Place(text, key).0 == |text|
    decreases |text|
  {
    hide Sets;
    if text != "" && !Sets(text[..ChunkLength(text)], key) {
      PlaceAtEnd(text[ChunkLength(text)..], key);
    }
  }

  /** A first line that sets one key says nothing of another. */
  lemma LineGone(s: string, n: nat, key: string, other: string, size: nat, found: string)
    requires s != "" && n == ChunkLength(s) && Sets(s[..n], key)
    requires s[n - 1] == '\n' || n == |s|
    requires KeyOk(key) && KeyOk(other) && key != other && size > 0
    ensures LookupFrom(s, other, size, found) == LookupFrom(s[n..], other, size, found)
  {
    hide KeyOk, Sets, Value;
    var l := LineLength(s);
    assert n == l + 1 || (n == l == |s|);
    var line := s[..l];
    if n == l + 1 {
      assert s[..n] == line + "\n";
      SetsWithNewline(line, key);
    }
    assert AfterLine(s) == s[n..];
    SetsNothingElse(line, key, other);
    assert LookupFrom(s, other, size, found) == LookupFrom(AfterLine(s), other, size, found);
  }

  // ------------------------------------------------------------------ a line that is too long

  /** A line of 4099 characters that sets A, and goes on with what looks like a setting of C. */
  const LONG_LINE: string := "A=" + seq(4093, _ => 'z') + "C=9\n"

  lemma LongLinePlace()
    ensures Place(LONG_LINE, "A") == (0, CHUNK_MAX) && Rest(LONG_LINE, "A") == "C=9\n"
  {
    var start := "A=" + seq(4093, _ => 'z');
    assert LONG_LINE == start + "C=9\n";
    assert |LONG_LINE| == CHUNK_MAX + 4;
    assert forall i :: 0 <= i < CHUNK_MAX + 3 ==> LONG_LINE[i] != '\n';
    LongStart(LONG_LINE, CHUNK_MAX + 3);
    assert LONG_LINE[..CHUNK_MAX] == start;
    SetsAtOnce(start, "A");
    assert LONG_LINE[CHUNK_MAX..] == "C=9\n";
  }

  lemma {:induction false} LongStart(s: string, n: nat)
    requires n <= |s| && forall i :: 0 <= i < n ==> s[i] != '\n'
    ensures LineLength(s) >= n
    decreases n
  {
    if n > 0 {
      assert forall i :: 0 <= i < n - 1 ==> s[1..][i] == s[i + 1];
      LongStart(s[1..], n - 1);
    }
  }

  lemma SetsAtOnce(line: string, key: string)
    requires key != "" && !Blank(key[0]) && key + "=" <= line
    ensures Sets(line, key)
  {
    assert line[0] == (key + "=")[0] == key[0];
  }

  /** Setting A there brings its tail to life: C, which nothing set, reads as 9. */
  lemma LongLineTailComesAlive(v: string)
    requires Token(v)
    ensures Lookup(LONG_LINE, "C", 8) == None
    ensures Lookup(Rewrite(LONG_LINE, "A", v), "C", 8) == Some("9")
  {
    hide Rewrite, Token, Setting, UpToEnd, SkipBlanks, HasChar;
    LongLinePlace();
    KeysAC();
    assert Front(LONG_LINE, "A") == "";
    ReadingAfterSet(LONG_LINE, "A", v, "C", 8);
    TailReads(Heard(Open("") + Setting("A", v), "C", 8, LookupLines(Ended(""), "C", 8, "")));
    LongLineSaysNothing();
  }

  lemma KeysAC()
    ensures KeyOk("A") && KeyOk("C") && "A" != "C" && Token("9")
  {
  }

  lemma TailReads(found: string)
    ensures LookupFrom("C=9\n", "C", 8, found) == "9"
  {
    hide UpToEnd;
    var l := Setting("C", "9");
    KeysAC();
    SettingIsLine("C", "9");
    assert l == "C=9";
    FirstLine(l, "");
    assert l + "\n" + "" == "C=9\n" && "" + l == l;
    TokenReadsBack("C", "9", "");
    assert LookupFrom("", "C", 8, "9") == "9";
  }

  lemma LongLineSaysNothing()
    ensures Lookup(LONG_LINE, "C", 8) == None
  {
    hide SkipBlanks;
    var l := LONG_LINE[..|LONG_LINE| - 1];
    assert LONG_LINE == l + "\n" + "";
    assert forall i :: 0 <= i < |l| ==> l[i] != '\n';
    FirstLine(l, "");
    assert "A=" <= l;
    SetsAtOnce(l, "A");
    KeysAC();
    SetsNothingElse(l, "A", "C");
    assert LookupFrom("", "C", 8, "") == "";
    assert LookupFrom(LONG_LINE, "C", 8, "") == LookupFrom(AfterLine(LONG_LINE), "C", 8, "");
  }
}
