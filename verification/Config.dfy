/**
 The settings file: one key rewritten in place, looked up again, and everything else untouched.
 The text of the file is a string; reading it, replacing it and caching it are not modelled.
 */
module Config {
  import opened Bytes

  const LOOKUP_MAX: nat := 1023
  const CHUNK_MAX: nat := 4095

  predicate Blank(c: char) {
    c == ' ' || c == '\t'
  }

  function SkipBlanks(s: string): string {
    if s != "" && Blank(s[0]) then SkipBlanks(s[1..]) else s
  }

  /** What is skipped is blanks, all of those at the front and nothing else. */
  lemma {:induction false} SkipBlanksIs(s: string)
    ensures var r := SkipBlanks(s);
            && |r| <= |s| && r == s[|s| - |r|..]
            && (r != "" ==> !Blank(r[0]))
            && (forall i :: 0 <= i < |s| - |r| ==> Blank(s[i]))
    decreases |s|
  {
    if s != "" && Blank(s[0]) {
      SkipBlanksIs(s[1..]);
    }
  }

  predicate HasChar(s: string, c: char) {
    exists i :: 0 <= i < |s| && s[i] == c
  }

  /** A name as the program uses them: nothing in it that the file's layout gives a meaning to. */
  predicate KeyOk(key: string) {
    key != "" && !HasChar(key, '=') && !HasChar(key, '\n') && !HasChar(key, '\r')
    && !Blank(key[0]) && key[0] != '#'
  }

  /** The line sets this key: blanks, the key, an equals sign. */
  predicate Sets(line: string, key: string) {
    key + "=" <= SkipBlanks(line)
  }

  // ------------------------------------------------------------------ looking up

  /** The text before the first carriage return or newline. */
  function UpToEnd(s: string): (r: string)
    ensures r <= s
  {
    if s == "" || s[0] == '\r' || s[0] == '\n' then "" else [s[0]] + UpToEnd(s[1..])
  }

  function Unquoted(s: string): string {
    if |s| >= 2 && s[0] == s[|s| - 1] && (s[0] == '"' || s[0] == '\'') then s[1..|s| - 1] else s
  }

  function Cut(s: string, n: nat): (r: string)
    ensures r <= s && |r| <= n
  {
    if |s| <= n then s else s[..n]
  }

  /** What one line says about a key; only so much of a long line is looked at. */
  function Value(line: string, key: string): Option<string> {
    var p := SkipBlanks(Cut(line, LOOKUP_MAX));
    if p == "" || p[0] == '#' || p[0] == '\r' || !(key + "=" <= p) then None
    else Some(Unquoted(UpToEnd(p[|key| + 1..])))
  }

  /** The length of the first line, without its newline. */
  function LineLength(s: string): (n: nat)
    ensures n <= |s|
    ensures n < |s| ==> s[n] == '\n'
    ensures forall i :: 0 <= i < n ==> s[i] != '\n'
  {
    if s == "" || s[0] == '\n' then 0 else 1 + LineLength(s[1..])
  }

  function AfterLine(s: string): (r: string)
    requires s != ""
    ensures |r| < |s|
  {
    var n := LineLength(s);
    if n < |s| then s[n + 1..] else ""
  }

  function Heard(line: string, key: string, size: nat, before: string): string
    requires size > 0
  {
    var v := Value(line, key);
    if v.Some? then Cut(v.value, size - 1) else before
  }

  /** The lookup from some point of the file on, when `found` is what the lines before it said. */
  function LookupFrom(text: string, key: string, size: nat, found: string): string
    requires size > 0
    decreases |text|
  {
    if text == "" then found
    else LookupFrom(AfterLine(text), key, size, Heard(text[..LineLength(text)], key, size, found))
  }

  /** The last line that sets the key wins; an empty value counts as not found. */
  function Lookup(text: string, key: string, size: nat): Option<string>
    requires size > 0
  {
    var v := LookupFrom(text, key, size, "");
    if v == "" then None else Some(v)
  }

  /** The scanning loop itself. */
  method Get(text: string, key: string, size: nat) returns (found: bool, out: string)
    requires size > 0
    ensures (if found then Some(out) else None) == Lookup(text, key, size)
  {
    hide Value;
    out := "";
    var cursor := 0;
    while cursor < |text|
      invariant cursor <= |text|
      invariant LookupFrom(text[cursor..], key, size, out) == LookupFrom(text, key, size, "")
    {
      var rest := text[cursor..];
      var n := LineLength(rest);
      var v := Value(rest[..n], key);
      if v.Some? {
        out := Cut(v.value, size - 1);
      }
      cursor := if n < |rest| then cursor + n + 1 else |text|;
      assert AfterLine(rest) == text[cursor..];
    }
    found := out != "";
  }

  // ------------------------------------------------------------------ rewriting

  /** What one read of the file brings: a line with its newline, or as much as fits. */
  function ChunkLength(s: string): (n: nat)
    requires s != ""
    ensures 0 < n <= |s|
  {
    var n := LineLength(s);
    if n < |s| && n < CHUNK_MAX then n + 1 else if |s| <= CHUNK_MAX then |s| else CHUNK_MAX
  }

  function Setting(key: string, v: string): string {
    key + "=" + v
  }

  /** The rewritten rest of a file, when the key has or has not been written already. */
  function RewriteFrom(text: string, key: string, v: string, replaced: bool): string
    decreases |text|
  {
    if text == "" then (if replaced then "" else Setting(key, v) + "\n")
    else
      var n := ChunkLength(text);
      if !replaced && Sets(text[..n], key)
      then Setting(key, v) + "\n" + RewriteFrom(text[n..], key, v, true)
      else text[..n] + RewriteFrom(text[n..], key, v, replaced)
  }

  function Rewrite(text: string, key: string, v: string): string {
    RewriteFrom(text, key, v, false)
  }

  /** One turn of the rewriting loop: what one read adds to the output. */
  lemma RewriteStep(rest: string, key: string, v: string, replaced: bool, before: string)
    requires rest != ""
    ensures var n := ChunkLength(rest);
            var here := !replaced && Sets(rest[..n], key);
            before + RewriteFrom(rest, key, v, replaced)
            == (if here then before + Setting(key, v) + "\n" else before + rest[..n])
               + RewriteFrom(rest[n..], key, v, replaced || here)
  {
    hide Sets, Setting, ChunkLength;
  }

  /** The rewriting loop itself. */
  method Rewritten(text: string, key: string, v: string) returns (out: string)
    ensures out == Rewrite(text, key, v)
  {
    hide Sets, Setting, ChunkLength, RewriteFrom;
    var replaced := false;
    var at := 0;
    out := "";
    assert text[0..] == text;
    while at < |text|
      invariant at <= |text|
      invariant out + RewriteFrom(text[at..], key, v, replaced) == RewriteFrom(text, key, v, false)
    {
      var rest := text[at..];
      var n := ChunkLength(rest);
      RewriteStep(rest, key, v, replaced, out);
      if !replaced && Sets(rest[..n], key) {
        out := out + Setting(key, v) + "\n";
        replaced := true;
      } else {
        out := out + rest[..n];
      }
      at := at + n;
      assert text[at..] == rest[n..];
    }
    RewriteEnd(key, v, replaced);
    assert text[at..] == "";
    if !replaced {
      out := out + (Setting(key, v) + "\n");
    }
  }

  lemma RewriteEnd(key: string, v: string, replaced: bool)
    ensures RewriteFrom("", key, v, replaced) == if replaced then "" else Setting(key, v) + "\n"
  {
  }

  // ------------------------------------------------------------------ files made of lines

  /** Lines that each end in a newline. */
  function File(ls: seq<string>): string {
    if ls == [] then "" else ls[0] + "\n" + File(ls[1..])
  }

  const LINE_MAX: nat := CHUNK_MAX - 1

  /** A line that one read of the rewriting loop brings whole. */
  predicate Line(l: string) {
    |l| <= LINE_MAX && !HasChar(l, '\n')
  }

  predicate Short(ls: seq<string>) {
    forall i :: 0 <= i < |ls| ==> Line(ls[i])
  }

  /** What there is to read: the ended lines, and the open one if the file does not end in a newline. */
  function Lines(ls: seq<string>, last: string): seq<string> {
    if last == "" then ls else ls + [last]
  }

  function SetLines(ls: seq<string>, key: string, v: string): seq<string> {
    if ls == [] then [Setting(key, v)]
    else if Sets(ls[0], key) then [Setting(key, v)] + ls[1..]
    else [ls[0]] + SetLines(ls[1..], key, v)
  }

  function LookupLines(ls: seq<string>, key: string, size: nat, found: string): string
    requires size > 0
  {
    if ls == [] then found else LookupLines(ls[1..], key, size, Heard(ls[0], key, size, found))
  }

  /** How many lines set the key. */
  function Setters(ls: seq<string>, key: string): nat {
    if ls == [] then 0 else (if Sets(ls[0], key) then 1 else 0) + Setters(ls[1..], key)
  }

  /** Every text is lines and an open line, possibly empty. */
  lemma {:induction false} EveryText(text: string) returns (ls: seq<string>, last: string)
    ensures text == File(ls) + last && !HasChar(last, '\n')
    ensures forall i :: 0 <= i < |ls| ==> !HasChar(ls[i], '\n')
    decreases |text|
  {
    var n := LineLength(text);
    if n == |text| {
      ls, last := [], text;
      assert File(ls) + last == text;
    } else {
      var rest;
      rest, last := EveryText(text[n + 1..]);
      ls := [text[..n]] + rest;
      assert ls[1..] == rest;
      assert text == text[..n] + "\n" + text[n + 1..];
      assert (text[..n] + "\n" + File(rest)) + last == text[..n] + "\n" + (File(rest) + last);
    }
  }

  lemma {:induction false} LineLengthOf(l: string, rest: string)
    requires !HasChar(l, '\n')
    ensures LineLength(l + "\n" + rest) == |l|
    decreases |l|
  {
    var s := l + "\n" + rest;
    if l == "" {
      assert s[0] == '\n';
    } else {
      assert s[0] == l[0];
      assert s[1..] == l[1..] + "\n" + rest;
      assert forall i :: 0 <= i < |l[1..]| ==> l[1..][i] == l[i + 1];
      LineLengthOf(l[1..], rest);
    }
  }

  lemma FirstLine(l: string, rest: string)
    requires !HasChar(l, '\n')
    ensures var s := l + "\n" + rest;
            s != "" && LineLength(s) == |l| && s[..|l|] == l && AfterLine(s) == rest
            && s[..|l| + 1] == l + "\n" && s[|l| + 1..] == rest
  {
    LineLengthOf(l, rest);
  }

  lemma NoNewline(s: string)
    requires !HasChar(s, '\n')
    ensures LineLength(s) == |s|
  {
    LineStops(s);
  }

  lemma LineStops(s: string)
    ensures LineLength(s) < |s| ==> HasChar(s, '\n')
  {
  }

  /** The lookup goes line by line, and the open line counts. */
  lemma {:induction false} LookupIsByLine(ls: seq<string>, last: string, key: string, size: nat, found: string)
    requires (forall i :: 0 <= i < |ls| ==> !HasChar(ls[i], '\n')) && !HasChar(last, '\n') && size > 0
    ensures LookupFrom(File(ls) + last, key, size, found) == LookupLines(Lines(ls, last), key, size, found)
    decreases |ls|
  {
    hide Heard, HasChar;
    if ls != [] {
      var rest := File(ls[1..]) + last;
      assert File(ls) + last == ls[0] + "\n" + rest;
      FirstLine(ls[0], rest);
      assert Lines(ls, last)[0] == ls[0] && Lines(ls, last)[1..] == Lines(ls[1..], last);
      LookupIsByLine(ls[1..], last, key, size, Heard(ls[0], key, size, found));
    } else if last != "" {
      NoNewline(last);
      assert File(ls) + last == last && last[..|last|] == last;
      assert AfterLine(last) == "";
      assert LookupFrom("", key, size, Heard(last, key, size, found)) == Heard(last, key, size, found);
      assert Lines(ls, last) == [last] && [last][1..] == [];
    } else {
      assert File(ls) + last == "";
    }
  }

  lemma {:induction false} SkipBlanksExtends(s: string, t: string)
    requires t != "" && !Blank(t[0])
    ensures SkipBlanks(s + t) == SkipBlanks(s) + t
    decreases |s|
  {
    if s == "" {
      assert s + t == t;
    } else if Blank(s[0]) {
      assert (s + t)[1..] == s[1..] + t;
      SkipBlanksExtends(s[1..], t);
    } else {
      assert (s + t)[0] == s[0];
    }
  }

  /** A prefix that ends in another character does not reach a newline put at the end. */
  lemma PrefixBeforeNewline(k: string, s: string)
    requires k != "" && k[|k| - 1] != '\n'
    ensures k <= s + "\n" <==> k <= s
  {
    assert |k| == |s| + 1 ==> (s + "\n")[|k| - 1] == '\n';
  }

  /** A newline at the end does not change which key a line sets. */
  lemma SetsWithNewline(l: string, key: string)
    ensures Sets(l + "\n", key) <==> Sets(l, key)
  {
    SkipBlanksExtends(l, "\n");
    PrefixBeforeNewline(key + "=", SkipBlanks(l));
  }

  /** Once the key is written, the rest of the file is copied through. */
  lemma {:induction false} RestIsCopied(ls: seq<string>, last: string, key: string, v: string)
    requires Short(ls) && Line(last)
    ensures RewriteFrom(File(ls) + last, key, v, true) == File(ls) + last
    decreases |ls|
  {
    hide HasChar, Sets;
    if ls != [] {
      var rest := File(ls[1..]) + last;
      assert File(ls) + last == ls[0] + "\n" + rest;
      assert Line(ls[0]);
      FirstLine(ls[0], rest);
      RestIsCopied(ls[1..], last, key, v);
    } else {
      assert File(ls) + last == last;
      OpenLine(last, key, v, true);
      RewriteEnd(key, v, true);
    }
  }

  /** The rewriting loop at the open line. */
  lemma OpenLine(last: string, key: string, v: string, replaced: bool)
    requires Line(last)
    ensures RewriteFrom(last, key, v, replaced)
            == if last == "" then (if replaced then "" else Setting(key, v) + "\n")
               else if !replaced && Sets(last, key) then Setting(key, v) + "\n"
               else if replaced then last
               else last + Setting(key, v) + "\n"
  {
    hide Sets, HasChar, Setting;
    if last != "" {
      NoNewline(last);
      assert last[..|last|] == last && last[|last|..] == "";
      RewriteEnd(key, v, true);
      RewriteEnd(key, v, false);
      assert Setting(key, v) + "\n" + "" == Setting(key, v) + "\n" && last + "" == last;
      assert last + (Setting(key, v) + "\n") == last + Setting(key, v) + "\n";
    }
  }

  /** A set key has its first line replaced; a new one is appended -- to the open line, if there is one. */
  function AfterSet(ls: seq<string>, last: string, key: string, v: string): (r: (seq<string>, string)) {
    if Setters(ls, key) > 0 then (SetLines(ls, key, v), last)
    else if last == "" || Sets(last, key) then (ls + [Setting(key, v)], "")
    else (ls + [last + Setting(key, v)], "")
  }

  lemma {:induction false} RewriteIsByLine(ls: seq<string>, last: string, key: string, v: string)
    requires Short(ls) && Line(last)
    ensures var r := AfterSet(ls, last, key, v);
            Rewrite(File(ls) + last, key, v) == File(r.0) + r.1
    decreases |ls|
  {
    hide Sets, HasChar, Setting;
    var kv := Setting(key, v);
    if ls == [] {
      assert File(ls) + last == last;
      OpenLine(last, key, v, false);
      OneLine(kv);
      OneLine(last + kv);
      assert ls + [kv] == [kv] && ls + [last + kv] == [last + kv];
    } else {
      var rest := File(ls[1..]) + last;
      assert File(ls) + last == ls[0] + "\n" + rest;
      assert Line(ls[0]);
      FirstLine(ls[0], rest);
      SetsWithNewline(ls[0], key);
      if Sets(ls[0], key) {
        RestIsCopied(ls[1..], last, key, v);
        assert SetLines(ls, key, v) == [kv] + ls[1..];
        FileCons(kv, ls[1..], last);
      } else {
        RewriteIsByLine(ls[1..], last, key, v);
        var r, q := AfterSet(ls, last, key, v), AfterSet(ls[1..], last, key, v);
        AfterSetCons(ls, last, key, v);
        FileCons(ls[0], q.0, q.1);
        assert Rewrite(File(ls) + last, key, v) == ls[0] + "\n" + Rewrite(rest, key, v);
      }
    }
  }

  lemma AfterSetCons(ls: seq<string>, last: string, key: string, v: string)
    requires ls != [] && !Sets(ls[0], key)
    ensures var q := AfterSet(ls[1..], last, key, v);
            AfterSet(ls, last, key, v) == ([ls[0]] + q.0, q.1)
  {
    hide Sets, Setting;
    assert ls == [ls[0]] + ls[1..];
    var kv := Setting(key, v);
    assert ls + [kv] == [ls[0]] + (ls[1..] + [kv]);
    assert ls + [last + kv] == [ls[0]] + (ls[1..] + [last + kv]);
  }

  lemma OneLine(l: string)
    ensures File([l]) + "" == l + "\n"
  {
    assert [l][1..] == [];
    assert l + "\n" + "" == l + "\n";
  }

  lemma FileCons(l: string, ls: seq<string>, last: string)
    ensures File([l] + ls) + last == l + "\n" + (File(ls) + last)
  {
    assert ([l] + ls)[1..] == ls;
    assert (l + "\n" + File(ls)) + last == l + "\n" + (File(ls) + last);
  }

  // ------------------------------------------------------------------ get after set

  predicate TokenChar(c: char) {
    'a' <= c <= 'z' || 'A' <= c <= 'Z' || '0' <= c <= '9'
    || c == '_' || c == '-' || c == '.' || c == '/' || c == ':'
  }

  /** A value that needs no quoting in a shell. */
  predicate Token(v: string) {
    v != "" && forall i :: 0 <= i < |v| ==> TokenChar(v[i])
  }

  lemma {:induction false} UpToEndOfToken(v: string)
    requires forall i :: 0 <= i < |v| ==> TokenChar(v[i])
    ensures UpToEnd(v) == v
    decreases |v|
  {
    if v != "" { UpToEndOfToken(v[1..]); }
  }

  /** A line that starts with the key and a token is read as that token. */
  lemma TokenReadsBack(key: string, v: string, blanks: string)
    requires KeyOk(key) && Token(v)
    requires |blanks| + |key| + 1 + |v| <= LOOKUP_MAX
    requires forall i :: 0 <= i < |blanks| ==> Blank(blanks[i])
    ensures Value(blanks + Setting(key, v), key) == Some(v)
  {
    hide SkipBlanks, UpToEnd;
    var line := blanks + Setting(key, v);
    SettingParts(key, v);
    assert Setting(key, v)[0] == key[0];
    BlanksGo(blanks, Setting(key, v));
    UpToEndOfToken(v);
    TokenIsBare(v);
    assert Cut(line, LOOKUP_MAX) == line;
  }

  lemma TokenIsBare(v: string)
    requires Token(v)
    ensures Unquoted(v) == v
  {
    assert TokenChar(v[0]);
  }

  lemma SettingParts(key: string, v: string)
    ensures key + "=" <= Setting(key, v) && Setting(key, v)[|key| + 1..] == v
  {
  }

  lemma {:induction false} BlanksGo(blanks: string, s: string)
    requires s != "" && !Blank(s[0])
    requires forall i :: 0 <= i < |blanks| ==> Blank(blanks[i])
    ensures SkipBlanks(blanks + s) == s
  {
    SkipBlanksExtends(blanks, s);
    SkipBlanksIs(blanks);
    assert SkipBlanks(blanks) == "";
  }

  /** One line sets at most one key. */
  lemma OneKeyPerLine(line: string, a: string, b: string)
    requires KeyOk(a) && KeyOk(b) && Sets(line, a) && Sets(line, b)
    ensures a == b
  {
    hide SkipBlanks;
    var s := SkipBlanks(line);
    FirstEquals(s, a);
    FirstEquals(s, b);
    assert |a| == |b|;
  }

  /** The key a line sets is what precedes its first equals sign. */
  lemma FirstEquals(s: string, key: string)
    requires key + "=" <= s && !HasChar(key, '=')
    ensures |key| < |s| && s[|key|] == '=' && s[..|key|] == key
    ensures forall i :: 0 <= i < |key| ==> s[i] != '='
  {
    assert s[..|key| + 1] == key + "=";
    assert s[..|key|] == s[..|key| + 1][..|key|] == key;
    assert s[|key|] == s[..|key| + 1][|key|];
    assert forall i :: 0 <= i < |key| ==> s[i] == s[..|key|][i] == key[i];
  }

  /** A prefix that is not all blanks loses its blanks as the whole does. */
  lemma {:induction false} SkipBlanksOfPrefix(s: string, t: string)
    ensures SkipBlanks(s) != "" ==> SkipBlanks(s + t) == SkipBlanks(s) + t
    decreases |s|
  {
    if s != "" && Blank(s[0]) {
      assert (s + t)[1..] == s[1..] + t;
      SkipBlanksOfPrefix(s[1..], t);
    } else if s != "" {
      assert (s + t)[0] == s[0];
    }
  }

  /** What the reader takes for a setting is one to the writer; on a line it sees whole, and conversely. */
  lemma ReaderAgreesWithWriter(line: string, key: string)
    requires KeyOk(key)
    ensures Value(line, key).Some? ==> Sets(line, key)
    ensures |line| <= LOOKUP_MAX ==> (Value(line, key).Some? <==> Sets(line, key))
  {
    hide SkipBlanks;
    var start := Cut(line, LOOKUP_MAX);
    var p := SkipBlanks(start);
    SkipBlanksOfPrefix(start, line[|start|..]);
    assert line == start + line[|start|..];
    if key + "=" <= SkipBlanks(line) {
      assert SkipBlanks(line)[0] == (key + "=")[0] == key[0];
    }
  }

  lemma SettingSets(key: string, v: string)
    requires KeyOk(key)
    ensures Sets(Setting(key, v), key)
  {
    assert Setting(key, v)[0] == key[0];
    assert key + "=" <= Setting(key, v);
  }

  /** Some line tells the reader something about the key. */
  predicate Says(ls: seq<string>, key: string) {
    exists i :: 0 <= i < |ls| && Value(ls[i], key).Some?
  }

  /** Some line after the first that sets the key does. */
  predicate Shadowed(ls: seq<string>, key: string) {
    ls != [] && if Sets(ls[0], key) then Says(ls[1..], key) else Shadowed(ls[1..], key)
  }

  /** What earlier lines said does not matter once some line says more, and is kept when none does. */
  lemma {:induction false} LookupFound(ls: seq<string>, key: string, size: nat, f: string, g: string)
    requires size > 0
    ensures if Says(ls, key) then LookupLines(ls, key, size, f) == LookupLines(ls, key, size, g)
            else LookupLines(ls, key, size, f) == f
    decreases |ls|
  {
    hide Value;
    if ls != [] {
      assert forall i :: 0 <= i < |ls[1..]| ==> ls[1..][i] == ls[i + 1];
      assert Says(ls, key) <==> Value(ls[0], key).Some? || Says(ls[1..], key);
      LookupFound(ls[1..], key, size, Heard(ls[0], key, size, f), Heard(ls[0], key, size, g));
    }
  }

  lemma {:induction false} NobodySets(ls: seq<string>, key: string)
    requires KeyOk(key) && Setters(ls, key) == 0
    ensures !Says(ls, key) && !Shadowed(ls, key)
    decreases |ls|
  {
    hide Sets, Value, KeyOk;
    if ls != [] {
      NobodySets(ls[1..], key);
      ReaderAgreesWithWriter(ls[0], key);
      assert forall i :: 1 <= i < |ls| ==> ls[1..][i - 1] == ls[i];
    }
  }

  function FirstSetter(ls: seq<string>, key: string): (i: nat)
    requires Setters(ls, key) > 0
    ensures i < |ls| && Sets(ls[i], key)
    ensures forall j :: 0 <= j < i ==> !Sets(ls[j], key)
  {
    if Sets(ls[0], key) then 0 else 1 + FirstSetter(ls[1..], key)
  }

  /** The first line that sets the key is the one rewritten; every other line stays where it was. */
  lemma {:induction false} OtherLinesUntouched(ls: seq<string>, key: string, v: string)
    ensures SetLines(ls, key, v)
            == if Setters(ls, key) == 0 then ls + [Setting(key, v)]
               else ls[FirstSetter(ls, key) := Setting(key, v)]
    decreases |ls|
  {
    hide Sets, Setting;
    if ls != [] && !Sets(ls[0], key) {
      OtherLinesUntouched(ls[1..], key, v);
      assert ls == [ls[0]] + ls[1..];
    }
  }

  /** The lookup after a set, exactly: the new value, unless a later line still says something else. */
  lemma {:induction false} LookupAfterSetLines(ls: seq<string>, key: string, v: string, size: nat, found: string)
    requires KeyOk(key) && Token(v) && |key| + 1 + |v| <= LOOKUP_MAX && |v| < size
    ensures LookupLines(SetLines(ls, key, v), key, size, found)
            == if Shadowed(ls, key) then LookupLines(ls, key, size, found) else v
    decreases |ls|
  {
    hide Sets, Value, KeyOk, Setting, Token, Says;
    var kv := Setting(key, v);
    assert "" + kv == kv;
    TokenReadsBack(key, v, "");
    if ls == [] {
      assert LookupLines([kv], key, size, found) == LookupLines([], key, size, v);
    } else if Sets(ls[0], key) {
      assert ([kv] + ls[1..])[1..] == ls[1..];
      LookupFound(ls[1..], key, size, v, Heard(ls[0], key, size, found));
    } else {
      ReaderAgreesWithWriter(ls[0], key);
      var rest := SetLines(ls[1..], key, v);
      assert ([ls[0]] + rest)[1..] == rest;
      LookupAfterSetLines(ls[1..], key, v, size, found);
    }
  }

  /** Every other key is read as before, whatever is written for this one. */
  lemma {:induction false} OtherKeysLines(ls: seq<string>, key: string, v: string, other: string, size: nat,
                                          found: string)
    requires KeyOk(key) && KeyOk(other) && key != other && size > 0
    ensures LookupLines(SetLines(ls, key, v), other, size, found) == LookupLines(ls, other, size, found)
    decreases |ls|
  {
    hide Sets, Value, KeyOk, Setting;
    var kv := Setting(key, v);
    SettingSets(key, v);
    SetsNothingElse(kv, key, other);
    if ls == [] {
      assert LookupLines([kv], other, size, found) == LookupLines([], other, size, found);
    } else if Sets(ls[0], key) {
      assert ([kv] + ls[1..])[1..] == ls[1..];
      SetsNothingElse(ls[0], key, other);
    } else {
      var rest := SetLines(ls[1..], key, v);
      assert ([ls[0]] + rest)[1..] == rest;
      OtherKeysLines(ls[1..], key, v, other, size, Heard(ls[0], other, size, found));
    }
  }

  lemma SetsNothingElse(line: string, key: string, other: string)
    requires KeyOk(key) && KeyOk(other) && key != other && Sets(line, key)
    ensures Value(line, other) == None && !Sets(line, other)
  {
    hide Value;
    ReaderAgreesWithWriter(line, other);
    if Sets(line, other) { OneKeyPerLine(line, key, other); }
  }

  /** The key is new and has to share a line with something else. */
  predicate Glued(ls: seq<string>, last: string, key: string) {
    last != "" && Setters(Lines(ls, last), key) == 0
  }

  /** What there is to read after a set. */
  lemma LinesAfterSet(ls: seq<string>, last: string, key: string, v: string)
    requires KeyOk(key)
    ensures var r := AfterSet(ls, last, key, v);
            Lines(r.0, r.1) == if Glued(ls, last, key) then ls + [last + Setting(key, v)]
                               else SetLines(Lines(ls, last), key, v)
  {
    hide Sets, Setting, KeyOk;
    SettersAppend(ls, last, key);
    SetLinesAppend(ls, last, key, v);
    OtherLinesUntouched(ls, key, v);
  }

  lemma {:induction false} SetLinesAppend(ls: seq<string>, l: string, key: string, v: string)
    ensures SetLines(ls + [l], key, v)
            == if Setters(ls, key) > 0 then SetLines(ls, key, v) + [l]
               else if Sets(l, key) then ls + [Setting(key, v)] else ls + [l, Setting(key, v)]
    decreases |ls|
  {
    hide Sets, Setting;
    if ls != [] {
      assert (ls + [l])[1..] == ls[1..] + [l];
      SetLinesAppend(ls[1..], l, key, v);
      assert [ls[0]] + ls[1..] == ls;
    } else {
      assert ls + [l] == [l];
      assert [l][1..] == [];
    }
  }

  lemma NoNewlineAfterSet(ls: seq<string>, last: string, key: string, v: string)
    requires Short(ls) && Line(last) && KeyOk(key) && Token(v)
    ensures var r := AfterSet(ls, last, key, v);
            (forall i :: 0 <= i < |r.0| ==> !HasChar(r.0[i], '\n')) && !HasChar(r.1, '\n')
  {
    hide Sets, Setters, SetLines;
    SettingIsLine(key, v);
    var kv := Setting(key, v);
    assert !HasChar(last + kv, '\n');
    SetLinesHaveNoNewline(ls, key, v);
  }

  lemma SettingIsLine(key: string, v: string)
    requires KeyOk(key) && Token(v)
    ensures !HasChar(Setting(key, v), '\n')
  {
    assert !HasChar(v, '\n');
  }

  lemma {:induction false} SetLinesHaveNoNewline(ls: seq<string>, key: string, v: string)
    requires Short(ls) && !HasChar(Setting(key, v), '\n')
    ensures forall i :: 0 <= i < |SetLines(ls, key, v)| ==> !HasChar(SetLines(ls, key, v)[i], '\n')
    decreases |ls|
  {
    hide Sets, HasChar, Setting;
    if ls != [] {
      assert Line(ls[0]);
      SetLinesHaveNoNewline(ls[1..], key, v);
    }
  }

  /** The lookup of any key in the rewritten text, in terms of its lines. */
  lemma LookupRewritten(ls: seq<string>, last: string, key: string, v: string, other: string, size: nat)
    requires Short(ls) && Line(last) && KeyOk(key) && Token(v) && size > 0
    ensures LookupFrom(Rewrite(File(ls) + last, key, v), other, size, "")
            == LookupLines(if Glued(ls, last, key) then ls + [last + Setting(key, v)]
                           else SetLines(Lines(ls, last), key, v), other, size, "")
  {
    hide KeyOk, Token, LookupFrom, LookupLines, AfterSet, Rewrite;
    var r := AfterSet(ls, last, key, v);
    RewriteIsByLine(ls, last, key, v);
    NoNewlineAfterSet(ls, last, key, v);
    LookupIsByLine(r.0, r.1, other, size, "");
    LinesAfterSet(ls, last, key, v);
  }

  /**
   A value that was set is read back, exactly when no line below it still says something else -- and
   not at all when the key was new and the file ended in an open line that was not blank.
   */
  lemma GetAfterSet(ls: seq<string>, last: string, key: string, v: string, size: nat)
    requires Short(ls) && Line(last) && KeyOk(key) && Token(v)
    requires |key| + 1 + |v| <= LOOKUP_MAX && |v| < size
    requires Glued(ls, last, key) ==> |last| + |key| + 1 + |v| <= LOOKUP_MAX
    ensures Lookup(Rewrite(File(ls) + last, key, v), key, size)
            == if Glued(ls, last, key) && SkipBlanks(last) != "" then None
               else if Shadowed(Lines(ls, last), key) then Lookup(File(ls) + last, key, size)
               else Some(v)
  {
    hide KeyOk, Token, Rewrite, SkipBlanks, Sets, Value, Setting, HasChar, LookupFrom, LookupLines, Glued,
         Shadowed, SetLines, Lines, File;
    LookupRewritten(ls, last, key, v, key, size);
    LookupIsByLine(ls, last, key, size, "");
    SomeValue(key, v);
    if Glued(ls, last, key) {
      GluedLookup(ls, last, key, v, size);
    } else {
      LookupAfterSetLines(Lines(ls, last), key, v, size, "");
    }
  }

  lemma SomeValue(key: string, v: string)
    requires Token(v)
    ensures v != ""
  {
  }

  lemma GluedLookup(ls: seq<string>, last: string, key: string, v: string, size: nat)
    requires Glued(ls, last, key) && KeyOk(key) && Token(v)
    requires |last| + |key| + 1 + |v| <= LOOKUP_MAX && |v| < size
    ensures !Shadowed(Lines(ls, last), key)
    ensures LookupLines(ls + [last + Setting(key, v)], key, size, "") == if SkipBlanks(last) == "" then v else ""
  {
    hide KeyOk, Token, SkipBlanks, Sets, Value, Setting, Shadowed;
    SettersAppend(ls, last, key);
    NobodySets(ls, key);
    NobodySets(Lines(ls, last), key);
    LookupFound(ls, key, size, "", "");
    LookupAppend(ls, last + Setting(key, v), key, size, "");
    GluedSets(last, key, v, key);
    ReaderAgreesWithWriter(last + Setting(key, v), key);
    if SkipBlanks(last) == "" {
      AllBlank(last);
      TokenReadsBack(key, v, last);
    } else {
      LongerThan(SkipBlanks(last), key);
    }
  }

  lemma AllBlank(s: string)
    requires SkipBlanks(s) == ""
    ensures forall i :: 0 <= i < |s| ==> Blank(s[i])
  {
  }

  lemma LongerThan(w: string, key: string)
    requires w != ""
    ensures w + key != key
  {
    assert |w + key| > |key|;
  }

  // ------------------------------------------------------------------ what a glued setting does

  /** A key with its equals sign does not start inside a copy of another, but where one begins it. */
  lemma EqualsAt(w: string, key: string, v: string, other: string)
    requires KeyOk(key) && KeyOk(other) && !(other + "=" <= w)
    ensures other + "=" <= w + Setting(key, v) <==> other == w + key
  {
    var kv := Setting(key, v);
    var o := other + "=";
    var all := w + kv;
    assert forall i :: 0 <= i < |key| ==> all[|w| + i] == key[i];
    assert all[|w| + |key|] == '=';
    assert all[..|w| + |key| + 1] == w + key + "=";
    assert all[..|w| + |key|] == w + key;
    if o <= all {
      FirstEquals(all, other);
      PrefixWithin(o, w, kv);
      assert |o| > |w|;
      assert all[|other|] == '=';
      assert |other| == |w| + |key|;
    }
  }

  lemma PrefixWithin(k: string, w: string, t: string)
    ensures |k| <= |w| ==> (k <= w + t <==> k <= w)
  {
    if |k| <= |w| {
      assert (w + t)[..|k|] == w[..|k|];
    }
  }

  /** A glued line sets what its beginning set, or the one key that the two parts spell together. */
  lemma GluedSets(last: string, key: string, v: string, other: string)
    requires KeyOk(key) && KeyOk(other)
    ensures SkipBlanks(last + Setting(key, v)) == SkipBlanks(last) + Setting(key, v)
    ensures Sets(last + Setting(key, v), other)
            <==> Sets(last, other) || other == SkipBlanks(last) + key
  {
    hide SkipBlanks;
    var kv := Setting(key, v);
    var w := SkipBlanks(last);
    assert kv[0] == key[0];
    SkipBlanksExtends(last, kv);
    if other + "=" <= w {
      PrefixWithin(other + "=", w, kv);
    } else {
      EqualsAt(w, key, v, other);
    }
  }

  lemma {:induction false} UpToEndGlued(x: string, t: string)
    requires !HasChar(x, '\n')
    ensures HasChar(x, '\r') ==> UpToEnd(x + t) == UpToEnd(x)
    ensures !HasChar(x, '\r') ==> UpToEnd(x + t) == x + UpToEnd(t) && UpToEnd(x) == x
    decreases |x|
  {
    if x == "" {
      assert x + t == t;
    } else {
      assert (x + t)[0] == x[0] && (x + t)[1..] == x[1..] + t;
      assert forall i :: 1 <= i < |x| ==> x[1..][i - 1] == x[i];
      assert forall c :: HasChar(x, c) <==> x[0] == c || HasChar(x[1..], c);
      if x[0] != '\r' {
        UpToEndGlued(x[1..], t);
        assert [x[0]] + (x[1..] + UpToEnd(t)) == x + UpToEnd(t);
      }
    }
  }

  /** What follows the equals sign of a line that sets the key. */
  function After(line: string, key: string): string
    requires Sets(line, key)
  {
    SkipBlanks(line)[|key| + 1..]
  }

  lemma ValueOf(line: string, key: string)
    requires KeyOk(key) && Sets(line, key) && |line| <= LOOKUP_MAX
    ensures Value(line, key) == Some(Unquoted(UpToEnd(After(line, key))))
  {
    hide SkipBlanks, UpToEnd;
    assert SkipBlanks(line)[0] == (key + "=")[0] == key[0];
  }

  /** A setting glued on makes the value it is glued to longer, unless a carriage return ended that. */
  lemma GluedValue(last: string, key: string, v: string, other: string)
    requires KeyOk(key) && Token(v) && KeyOk(other) && Line(last) && Sets(last, other)
    requires |last| + |key| + 1 + |v| <= LOOKUP_MAX
    ensures Value(last + Setting(key, v), other)
            == if HasChar(last, '\r') then Value(last, other) else Some(After(last, other) + Setting(key, v))
  {
    hide SkipBlanks, Value, UpToEnd, Unquoted, KeyOk;
    var kv := Setting(key, v);
    var x := After(last, other);
    GluedSets(last, key, v, other);
    AfterGlued(last, other, kv);
    ValueOf(last, other);
    ValueOf(last + kv, other);
    AfterChars(last, other);
    UpToEndGlued(x, kv);
    SettingToEnd(key, v);
    BareWithSetting(x, key, v);
  }

  lemma AfterGlued(last: string, other: string, t: string)
    requires Sets(last, other) && SkipBlanks(last + t) == SkipBlanks(last) + t
    ensures Sets(last + t, other) && After(last + t, other) == After(last, other) + t
  {
    hide SkipBlanks;
    PrefixWithin(other + "=", SkipBlanks(last), t);
  }

  lemma AfterChars(last: string, other: string)
    requires KeyOk(other) && Line(last) && Sets(last, other)
    ensures !HasChar(After(last, other), '\n')
    ensures HasChar(After(last, other), '\r') <==> HasChar(last, '\r')
  {
    hide HasChar, SkipBlanks;
    SkipBlanksIs(last);
    var w, x := SkipBlanks(last), After(last, other);
    var blanks, o := last[..|last| - |w|], other + "=";
    assert w[..|o|] == o;
    assert last == blanks + (o + x);
    assert forall i :: 0 <= i < |blanks| ==> Blank(blanks[i]);
    BlanksAreBlank(blanks);
    KeyIsPlain(other);
    forall c: char
      ensures HasChar(last, c) <==> HasChar(blanks, c) || HasChar(o, c) || HasChar(x, c)
    {
      HasCharJoined(blanks, o + x, c);
      HasCharJoined(o, x, c);
    }
  }

  lemma HasCharJoined(a: string, b: string, c: char)
    ensures HasChar(a + b, c) <==> HasChar(a, c) || HasChar(b, c)
  {
    assert forall i :: 0 <= i < |b| ==> (a + b)[|a| + i] == b[i];
    assert forall i :: 0 <= i < |a| ==> (a + b)[i] == a[i];
  }

  lemma BlanksAreBlank(blanks: string)
    requires forall i :: 0 <= i < |blanks| ==> Blank(blanks[i])
    ensures !HasChar(blanks, '\r')
  {
  }

  lemma KeyIsPlain(key: string)
    requires KeyOk(key)
    ensures !HasChar(key + "=", '\r')
  {
  }

  lemma SettingToEnd(key: string, v: string)
    requires KeyOk(key) && Token(v)
    ensures UpToEnd(Setting(key, v)) == Setting(key, v)
  {
    hide UpToEnd;
    var front := key + "=";
    assert !HasChar(front, '\r') && !HasChar(front, '\n');
    UpToEndGlued(front, v);
    UpToEndOfToken(v);
  }

  lemma BareWithSetting(x: string, key: string, v: string)
    requires Token(v)
    ensures Unquoted(x + Setting(key, v)) == x + Setting(key, v)
  {
    var s := x + Setting(key, v);
    assert s[|s| - 1] == v[|v| - 1];
    assert TokenChar(v[|v| - 1]);
  }

  /**
   Setting one key changes the reading of no other -- exactly unless the key is new, the file ends in
   an open line, and that line sets the other key (with no carriage return after its value), or is the
   beginning of a name that the key completes.
   */
  lemma SetTouchesNoOtherKey(ls: seq<string>, last: string, key: string, v: string, other: string, size: nat)
    requires Short(ls) && Line(last) && KeyOk(key) && KeyOk(other) && key != other && Token(v)
    requires Glued(ls, last, key) ==> |last| + |key| + 1 + |v| <= LOOKUP_MAX
    requires if Glued(ls, last, key) then |last| + |key| + 1 + |v| < size else size > 0
    ensures var before := Lookup(File(ls) + last, other, size);
            var after := Lookup(Rewrite(File(ls) + last, key, v), other, size);
            if Glued(ls, last, key) && Sets(last, other) && !HasChar(last, '\r') then
              after == Some(After(last, other) + Setting(key, v)) && after != before
            else if Glued(ls, last, key) && other == SkipBlanks(last) + key then after == Some(v)
            else after == before
  {
    hide KeyOk, Token, Rewrite, SkipBlanks, Sets, Value, Setting, After, HasChar, LookupLines;
    LookupRewritten(ls, last, key, v, other, size);
    LookupIsByLine(ls, last, other, size, "");
    if Glued(ls, last, key) {
      LookupAppend(ls, last + Setting(key, v), other, size, "");
      LookupAppend(ls, last, other, size, "");
      GluedHeard(last, key, v, other, size, LookupLines(ls, other, size, ""));
    } else {
      OtherKeysLines(Lines(ls, last), key, v, other, size, "");
    }
  }

  lemma GluedHeard(last: string, key: string, v: string, other: string, size: nat, found: string)
    requires Line(last) && KeyOk(key) && KeyOk(other) && key != other && Token(v)
    requires |last| + |key| + 1 + |v| <= LOOKUP_MAX && |last| + |key| + 1 + |v| < size
    ensures var before := Heard(last, other, size, found);
            var after := Heard(last + Setting(key, v), other, size, found);
            if Sets(last, other) && !HasChar(last, '\r') then
              after == After(last, other) + Setting(key, v) && after != "" && after != before
            else if other == SkipBlanks(last) + key then after == v && v != ""
            else after == before
  {
    hide KeyOk, SkipBlanks, Sets, Value, HasChar, Token, UpToEnd;
    GluedSets(last, key, v, other);
    ReaderAgreesWithWriter(last, other);
    ReaderAgreesWithWriter(last + Setting(key, v), other);
    if Sets(last, other) {
      GluedValue(last, key, v, other);
      ValueOf(last, other);
      NotSpelled(last, key, other);
      AfterIsWithin(last, other);
    } else if other == SkipBlanks(last) + key {
      SpelledValue(last, key, v, other);
    }
  }

  /** A line that sets a key already is not the beginning of that key. */
  lemma NotSpelled(last: string, key: string, other: string)
    requires KeyOk(other) && Sets(last, other)
    ensures other != SkipBlanks(last) + key
  {
    assert |SkipBlanks(last) + key| > |other|;
  }

  lemma AfterIsWithin(last: string, other: string)
    requires Sets(last, other)
    ensures |Unquoted(UpToEnd(After(last, other)))| <= |After(last, other)| <= |last|
  {
    SkipBlanksIs(last);
    hide UpToEnd;
  }

  /** The two parts of a glued line spell a key, and the value is the one just set. */
  lemma SpelledValue(last: string, key: string, v: string, other: string)
    requires KeyOk(key) && KeyOk(other) && Token(v) && other == SkipBlanks(last) + key && !Sets(last, other)
    requires |last| + |key| + 1 + |v| <= LOOKUP_MAX
    ensures Value(last + Setting(key, v), other) == Some(v) && v != ""
  {
    hide *;
    var line := last + Setting(key, v);
    GluedSets(last, key, v, other);
    Spelled(SkipBlanks(last), key, v);
    ReadsSetting(line, other, v);
  }

  lemma ReadsSetting(line: string, key: string, v: string)
    requires KeyOk(key) && Token(v) && Sets(line, key) && SkipBlanks(line) == Setting(key, v)
    requires |line| <= LOOKUP_MAX
    ensures Value(line, key) == Some(v)
  {
    hide KeyOk, Value, Sets, SkipBlanks, Setting, UpToEnd;
    ValueOf(line, key);
    SettingParts(key, v);
    UpToEndOfToken(v);
    TokenIsBare(v);
  }

  lemma Spelled(w: string, key: string, v: string)
    requires Token(v)
    ensures w + Setting(key, v) == Setting(w + key, v) && v != ""
    ensures |Setting(key, v)| == |key| + 1 + |v|
  {
  }

  /** Only the last of several settings of one key survives, exactly unless the first was glued on. */
  lemma LastSetWins(ls: seq<string>, last: string, key: string, v: string, w: string)
    requires Short(ls) && Line(last) && KeyOk(key) && Token(v) && |last| + |key| + 1 + |v| <= LINE_MAX
    ensures Rewrite(Rewrite(File(ls) + last, key, v), key, w) == Rewrite(File(ls) + last, key, w)
            <==> !Glued(ls, last, key)
  {
    hide Sets, Rewrite, KeyOk, Token, Setting, HasChar, Setters, SetLines, File;
    var r, s := AfterSet(ls, last, key, v), AfterSet(ls, last, key, w);
    RewriteIsByLine(ls, last, key, v);
    RewriteIsByLine(ls, last, key, w);
    ShortAfterSet(ls, last, key, v);
    RewriteIsByLine(r.0, r.1, key, w);
    if Glued(ls, last, key) {
      GluedTwice(ls, last, key, v, w);
    } else {
      SetTwice(ls, last, key, v, w);
    }
  }

  lemma ShortAfterSet(ls: seq<string>, last: string, key: string, v: string)
    requires Short(ls) && Line(last) && KeyOk(key) && Token(v) && |last| + |key| + 1 + |v| <= LINE_MAX
    ensures var r := AfterSet(ls, last, key, v); Short(r.0) && Line(r.1)
  {
    hide Sets, HasChar, Setters, KeyOk, Token;
    NoNewlineAfterSet(ls, last, key, v);
    SetLinesFit(ls, key, v);
  }

  lemma {:induction false} SetLinesFit(ls: seq<string>, key: string, v: string)
    requires Short(ls) && |key| + 1 + |v| <= LINE_MAX
    ensures forall i :: 0 <= i < |SetLines(ls, key, v)| ==> |SetLines(ls, key, v)[i]| <= LINE_MAX
    decreases |ls|
  {
    hide Sets, HasChar;
    if ls != [] {
      assert Line(ls[0]);
      SetLinesFit(ls[1..], key, v);
    }
  }

  lemma SetTwice(ls: seq<string>, last: string, key: string, v: string, w: string)
    requires KeyOk(key) && !Glued(ls, last, key)
    ensures var r := AfterSet(ls, last, key, v);
            AfterSet(r.0, r.1, key, w) == AfterSet(ls, last, key, w)
  {
    hide Sets, KeyOk, Setting;
    var kv := Setting(key, v);
    SettersAppend(ls, last, key);
    SettersAppend(ls, kv, key);
    SettingSets(key, v);
    SetLinesTwice(ls, key, v, w);
    StillSets(ls, key, v);
    SetLinesAppend(ls, kv, key, w);
  }

  lemma {:induction false} StillSets(ls: seq<string>, key: string, v: string)
    requires KeyOk(key)
    ensures Setters(SetLines(ls, key, v), key) > 0
    decreases |ls|
  {
    hide Sets, KeyOk, Setting;
    SettingSets(key, v);
    if ls != [] && !Sets(ls[0], key) {
      StillSets(ls[1..], key, v);
      assert SetLines(ls, key, v)[1..] == SetLines(ls[1..], key, v);
    }
  }

  /** Set again, a glued setting is either left where it is or loses the blanks it was glued to. */
  lemma GluedTwice(ls: seq<string>, last: string, key: string, v: string, w: string)
    requires KeyOk(key) && Glued(ls, last, key)
    ensures var r, s := AfterSet(ls, last, key, v), AfterSet(ls, last, key, w);
            var q := AfterSet(r.0, r.1, key, w);
            File(q.0) + q.1 != File(s.0) + s.1
  {
    hide Sets, KeyOk, File;
    var g, kw := last + Setting(key, v), Setting(key, w);
    SettersAppend(ls, last, key);
    SettersAppend(ls, g, key);
    SetLinesAppend(ls, g, key, w);
    FileLength(ls, last + kw);
    FileLength(ls, kw);
    FileLength(ls, g);
    FileLength(ls + [g], kw);
    assert ls + [g, kw] == (ls + [g]) + [kw];
  }

  lemma {:induction false} FileLength(ls: seq<string>, l: string)
    ensures |File(ls + [l])| == |File(ls)| + |l| + 1
    decreases |ls|
  {
    if ls != [] {
      assert (ls + [l])[1..] == ls[1..] + [l];
      FileLength(ls[1..], l);
    } else {
      assert ls + [l] == [l];
      assert [l][1..] == [];
    }
  }

  lemma {:induction false} SetLinesTwice(ls: seq<string>, key: string, v: string, w: string)
    requires KeyOk(key)
    ensures SetLines(SetLines(ls, key, v), key, w) == SetLines(ls, key, w)
    decreases |ls|
  {
    hide Sets, Setting, KeyOk;
    SettingSets(key, v);
    if ls != [] && !Sets(ls[0], key) { SetLinesTwice(ls[1..], key, v, w); }
  }

  /** One file that ends in an open line: the setting is lost, and the other one is changed. */
  lemma SettingIsLost()
    ensures Lookup(Rewrite("A=1", "B", "2"), "B", 8) == None
    ensures Lookup("A=1", "A", 8) != Some("1B=2") && Lookup(Rewrite("A=1", "B", "2"), "A", 8) == Some("1B=2")
  {
    hide Lookup, Rewrite, UpToEnd, Setters, Token, KeyOk, Line, File, Sets, After, Setting;
    var none: seq<string> := [];
    Letters();
    NotSetBy("A=1", "B");
    SettersAppend(none, "A=1", "B");
    NoSetters("B");
    SetAtOnce("A=1", "A", "1");
    GetAfterSet(none, "A=1", "B", "2", 8);
    SetTouchesNoOtherKey(none, "A=1", "B", "2", "A", 8);
  }

  lemma Letters()
    ensures KeyOk("A") && KeyOk("B") && Token("2") && Line("A=1") && !HasChar("A=1", '\r')
    ensures File([]) + "A=1" == "A=1" && "A=1" == Setting("A", "1") && "1" + Setting("B", "2") == "1B=2"
  {
  }

  lemma NoSetters(key: string)
    ensures Setters([], key) == 0
  {
  }

  lemma NotSetBy(line: string, key: string)
    requires line != "" && key != "" && !Blank(line[0]) && line[0] != key[0]
    ensures SkipBlanks(line) == line && !Sets(line, key)
  {
    assert (key + "=")[0] == key[0];
  }

  lemma SetAtOnce(line: string, key: string, x: string)
    requires line == Setting(key, x) && key != "" && !Blank(key[0])
    ensures Sets(line, key) && After(line, key) == x
  {
    assert line[0] == key[0];
    SettingParts(key, x);
    assert SkipBlanks(line) == line;
  }

  lemma {:induction false} SettersAppend(ls: seq<string>, l: string, key: string)
    ensures Setters(ls + [l], key) == Setters(ls, key) + if Sets(l, key) then 1 else 0
    decreases |ls|
  {
    hide Sets;
    if ls != [] {
      assert (ls + [l])[1..] == ls[1..] + [l];
      SettersAppend(ls[1..], l, key);
    } else {
      assert ls + [l] == [l];
    }
  }

  lemma {:induction false} LookupAppend(ls: seq<string>, l: string, key: string, size: nat, found: string)
    requires size > 0
    ensures LookupLines(ls + [l], key, size, found)
         == Heard(l, key, size, LookupLines(ls, key, size, found))
    decreases |ls|
  {
    hide Heard;
    if ls != [] {
      assert (ls + [l])[1..] == ls[1..] + [l];
      LookupAppend(ls[1..], l, key, size, Heard(ls[0], key, size, found));
    } else {
      assert ls + [l] == [l];
      assert [l][1..] == [];
    }
  }

  // ------------------------------------------------------------------ whole numbers

  const LONG_MAX: int := 0x7FFF_FFFF_FFFF_FFFF
  const LONG_MIN: int := -0x8000_0000_0000_0000

  predicate Long(n: int) {
    LONG_MIN <= n <= LONG_MAX
  }

  function Digits(n: nat): (s: string)
    ensures s != ""
    ensures forall i :: 0 <= i < |s| ==> '0' <= s[i] <= '9'
    ensures n > 0 ==> s[0] != '0'
  {
    var last := [('0' as int + n % 10) as char];
    if n < 10 then last else Digits(n / 10) + last
  }

  function Decimal(n: int): string {
    if n < 0 then "-" + Digits(-n) else Digits(n)
  }

  function DigitValue(c: char): nat {
    if '0' <= c <= '9' then c as nat - '0' as nat
    else if 'a' <= c <= 'z' then c as nat - 'a' as nat + 10
    else if 'A' <= c <= 'Z' then c as nat - 'A' as nat + 10
    else 36
  }

  /** The number spelled by the leading digits of a base. */
  function Leading(s: string, base: nat, sofar: nat): nat {
    if s == "" || DigitValue(s[0]) >= base then sofar
    else Leading(s[1..], base, sofar * base + DigitValue(s[0]))
  }

  function SkipSpace(s: string): string {
    if s != "" && (s[0] == ' ' || '\t' <= s[0] <= '\r') then SkipSpace(s[1..]) else s
  }

  predicate HexPrefix(s: string) {
    |s| >= 3 && s[0] == '0' && (s[1] == 'x' || s[1] == 'X') && DigitValue(s[2]) < 16
  }

  function Magnitude(s: string): Option<nat> {
    if HexPrefix(s) then Some(Leading(s[2..], 16, 0))
    else if s == "" || DigitValue(s[0]) >= 10 then None
    else Some(Leading(s, if s[0] == '0' then 8 else 10, 0))
  }

  function Saturated(n: int): int {
    if n < LONG_MIN then LONG_MIN else if n > LONG_MAX then LONG_MAX else n
  }

  /** The C library's base-0 reading: white space, a sign, then hexadecimal, octal or decimal digits. */
  function ParseBase0(s: string): Option<int> {
    var p := SkipSpace(s);
    var signed := p != "" && (p[0] == '-' || p[0] == '+');
    match Magnitude(if signed then p[1..] else p)
    case None => None
    case Some(m) =>
      var n: int := m;
      Some(Saturated(if signed && p[0] == '-' then -n else n))
  }

  lemma {:induction false} LeadingAppend(s: string, c: char, sofar: nat)
    requires forall i :: 0 <= i < |s| ==> '0' <= s[i] <= '9'
    requires '0' <= c <= '9'
    ensures Leading(s + [c], 10, sofar) == Leading(s, 10, sofar) * 10 + DigitValue(c)
    decreases |s|
  {
    if s == "" {
      assert s + [c] == [c];
      assert [c][1..] == "";
    } else {
      assert (s + [c])[0] == s[0] && (s + [c])[1..] == s[1..] + [c];
      LeadingAppend(s[1..], c, sofar * 10 + DigitValue(s[0]));
    }
  }

  lemma {:induction false} DigitsReadBack(n: nat)
    ensures Leading(Digits(n), 10, 0) == n
  {
    var c := ('0' as int + n % 10) as char;
    if n < 10 {
      assert Digits(n) == [c];
      assert [c][1..] == "";
    } else {
      DigitsReadBack(n / 10);
      LeadingAppend(Digits(n / 10), c, 0);
    }
  }

  lemma MagnitudeOfDigits(n: nat)
    ensures Magnitude(Digits(n)) == Some(n)
  {
    DigitsReadBack(n);
    if n == 0 {
      assert Digits(0) == "0";
      assert "0"[1..] == "";
      assert Leading("0", 8, 0) == Leading("", 8, 0);
    }
  }

  /** A printed number is read back as itself. */
  lemma DecimalReadsBack(n: int)
    requires Long(n)
    ensures ParseBase0(Decimal(n)) == Some(n)
  {
    var d := Digits(if n < 0 then -n else n);
    MagnitudeOfDigits(if n < 0 then -n else n);
    if n < 0 {
      assert Decimal(n)[0] == '-' && Decimal(n)[1..] == d;
    }
  }

  function Pow10(d: nat): nat {
    if d == 0 then 1 else 10 * Pow10(d - 1)
  }

  lemma {:induction false} DigitsShort(n: nat, d: nat)
    requires d > 0 && n < Pow10(d)
    ensures |Digits(n)| <= d
  {
    if n >= 10 {
      assert d > 1;
      assert Pow10(d) == 10 * Pow10(d - 1);
      DigitsShort(n / 10, d - 1);
    }
  }

  lemma DecimalIsToken(n: int)
    requires Long(n)
    ensures Token(Decimal(n)) && |Decimal(n)| <= 20
  {
    var m := if n < 0 then -n else n;
    assert Pow10(4) == 10_000;
    assert Pow10(9) == 100_000 * Pow10(4);
    assert Pow10(14) == 100_000 * Pow10(9);
    assert Pow10(19) == 100_000 * Pow10(14);
    DigitsShort(m, 19);
  }

  function Clamped(n: int, lo: int, hi: int): int {
    if n < lo then lo else if n > hi then hi else n
  }

  const INT_SIZE: nat := 64

  function GetInt(text: string, key: string, fallback: int, lo: int, hi: int): int {
    match Lookup(text, key, INT_SIZE)
    case None => fallback
    case Some(s) =>
      match ParseBase0(s)
      case None => fallback
      case Some(n) => Clamped(n, lo, hi)
  }

  /** A number that was set is read back, clamped to the caller's range, under the same conditions. */
  lemma GetIntAfterSetInt(ls: seq<string>, last: string, key: string, n: int, fallback: int, lo: int, hi: int)
    requires Short(ls) && Line(last) && KeyOk(key) && Long(n) && |key| + 21 <= LOOKUP_MAX
    requires Glued(ls, last, key) ==> |last| + |key| + 21 <= LOOKUP_MAX
    ensures GetInt(Rewrite(File(ls) + last, key, Decimal(n)), key, fallback, lo, hi)
            == if Glued(ls, last, key) && SkipBlanks(last) != "" then fallback
               else if Shadowed(Lines(ls, last), key) then GetInt(File(ls) + last, key, fallback, lo, hi)
               else Clamped(n, lo, hi)
  {
    hide Lookup, Rewrite, Decimal, KeyOk, Glued, Shadowed, SkipBlanks, ParseBase0;
    DecimalIsToken(n);
    DecimalReadsBack(n);
    GetAfterSet(ls, last, key, Decimal(n), INT_SIZE);
  }

  // ------------------------------------------------------------------ the file as the program uses it

  /** The settings file; a missing file reads as an empty one. `writable` is the file system's answer. */
  class ConfigFile {
    var text: string

    constructor (contents: string)
      ensures text == contents
    {
      text := contents;
    }

    /** A refused or failed write leaves the file as it was. */
    method SetStr(key: string, value: string, writable: bool) returns (ok: bool)
      modifies this
      ensures ok <==> key != "" && Token(value) && writable
      ensures text == if ok then Rewrite(old(text), key, value) else old(text)
    {
      if key == "" || value == "" { return false; }
      var i := 0;
      while i < |value|
        invariant i <= |value|
        invariant forall j :: 0 <= j < i ==> TokenChar(value[j])
      {
        if !TokenChar(value[i]) { return false; }
        i := i + 1;
      }
      ok := writable;
      if ok { text := Rewritten(text, key, value); }
    }

    method SetInt(key: string, value: int, writable: bool) returns (ok: bool)
      requires Long(value)
      modifies this
      ensures ok <==> key != "" && writable
      ensures text == if ok then Rewrite(old(text), key, Decimal(value)) else old(text)
    {
      ok := key != "" && writable;
      if ok { text := Rewritten(text, key, Decimal(value)); }
    }

    method ReadInt(key: string, fallback: int, lo: int, hi: int) returns (n: int)
      ensures n == GetInt(text, key, fallback, lo, hi)
    {
      var found, s := Get(text, key, INT_SIZE);
      if !found { return fallback; }
      match ParseBase0(s)
      case None => n := fallback;
      case Some(v) =>
        n := v;
        if n < lo { n := lo; } else if n > hi { n := hi; }
    }
  }
}
