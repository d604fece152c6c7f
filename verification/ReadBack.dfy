/**
 Settings written by hand: quoted values, comments, hexadecimal and octal numbers, each read back from
 a writer of its own.
 */
module ReadBack {
  import opened Bytes
  import opened Config

  predicate Quote(c: char) {
    c == '"' || c == '\''
  }

  /** A value that ends where its line ends. */
  predicate Plain(v: string) {
    forall i :: 0 <= i < |v| ==> v[i] != '\r' && v[i] != '\n'
  }

  predicate AllBlank(s: string) {
    forall i :: 0 <= i < |s| ==> s[i] == ' ' || s[i] == '\t'
  }

  /** What may follow a value on its line: nothing, or a carriage return and whatever is behind it. */
  predicate Ending(s: string) {
    s == "" || s[0] == '\r' || s[0] == '\n'
  }

  lemma {:induction false} UpToEnding(v: string, ending: string)
    requires Plain(v) && Ending(ending)
    ensures UpToEnd(v + ending) == v
    decreases |v|
  {
    if v == "" {
      assert v + ending == ending;
    } else {
      assert (v + ending)[1..] == v[1..] + ending;
      UpToEnding(v[1..], ending);
    }
  }

  /** A setting line, indented or not, with its value as the file spells it. */
  lemma SpelledReadsBack(blanks: string, key: string, v: string, ending: string)
    requires KeyOk(key) && AllBlank(blanks) && Plain(v) && Ending(ending)
    requires |blanks| + |key| + 1 + |v| + |ending| <= 1023
    ensures Value(blanks + (key + "=" + v + ending), key) == Some(Unquoted(v))
  {
    var p := key + "=" + v + ending;
    BlanksGo(blanks, p);
    assert p[|key| + 1..] == v + ending;
    assert key + "=" <= p;
    UpToEnding(v, ending);
    assert p[0] == key[0];
  }

  /** Quotes around a value, single or double, are taken off, and nothing else is. */
  lemma QuotedReadsBack(blanks: string, key: string, q: char, v: string, ending: string)
    requires KeyOk(key) && AllBlank(blanks) && Plain(v) && Quote(q) && Ending(ending)
    requires |blanks| + |key| + 3 + |v| + |ending| <= 1023
    ensures Value(blanks + (key + "=" + ([q] + v + [q]) + ending), key) == Some(v)
  {
    var w := [q] + v + [q];
    SpelledReadsBack(blanks, key, w, ending);
    assert w[1..|w| - 1] == v;
  }

  /** A value that does not begin and end with the same quote is taken as it stands. */
  lemma UnquotedReadsBack(blanks: string, key: string, v: string, ending: string)
    requires KeyOk(key) && AllBlank(blanks) && Plain(v) && Ending(ending)
    requires |v| < 2 || !Quote(v[0]) || v[|v| - 1] != v[0]
    requires |blanks| + |key| + 1 + |v| + |ending| <= 1023
    ensures Value(blanks + (key + "=" + v + ending), key) == Some(v)
  {
    SpelledReadsBack(blanks, key, v, ending);
  }

  /** A comment says nothing about any key, whatever it looks like. */
  lemma CommentSaysNothing(blanks: string, text: string, key: string)
    requires AllBlank(blanks) && |blanks| + 1 + |text| <= 1023
    ensures Value(blanks + ("#" + text), key) == None
  {
    BlanksGo(blanks, "#" + text);
  }

  /** And a line about one key says nothing about another. */
  lemma OtherKeySaysNothing(blanks: string, key: string, v: string, other: string)
    requires KeyOk(key) && KeyOk(other) && other != key && AllBlank(blanks)
    requires |blanks| + |key| + 1 + |v| <= 1023
    ensures Value(blanks + (key + "=" + v), other) == None
  {
    BlanksGo(blanks, key + "=" + v);
    if other + "=" <= key + "=" + v {
      SameKey(key, v, other);
    }
  }

  lemma SameKey(key: string, v: string, other: string)
    requires KeyOk(key) && KeyOk(other) && other + "=" <= key + "=" + v
    ensures other == key
  {
    var p := key + "=" + v;
    assert p[|key|] == '=' && p[|other|] == (other + "=")[|other|] == '=';
    assert forall i :: 0 <= i < |key| ==> p[i] == key[i] && key[i] != '=';
    assert forall i :: 0 <= i < |other| ==> p[i] == (other + "=")[i] == other[i] && other[i] != '=';
    assert |key| == |other|;
  }

  // ------------------------------------------------------------------ numbers in other bases

  function Digit(n: nat, upper: bool): char
    requires n < 16
  {
    if n < 10 then "0123456789"[n] else if upper then "ABCDEF"[n - 10] else "abcdef"[n - 10]
  }

  /** A number written in a base. */
  function InBase(n: nat, base: nat, upper: bool): (s: string)
    requires base == 8 || base == 16
    ensures s != ""
  {
    (if n < base then "" else InBase(n / base, base, upper)) + [Digit(n % base, upper)]
  }

  lemma DigitReadsBack(n: nat, upper: bool)
    requires n < 16
    ensures DigitValue(Digit(n, upper)) == n
  {
  }

  lemma {:induction false} LeadingLast(s: string, c: char, base: nat, sofar: nat)
    requires DigitValue(c) < base && forall i :: 0 <= i < |s| ==> DigitValue(s[i]) < base
    ensures Leading(s + [c], base, sofar) == Leading(s, base, sofar) * base + DigitValue(c)
    decreases |s|
  {
    hide DigitValue;
    if s == "" {
      assert s + [c] == [c];
      assert [c][1..] == "";
    } else {
      assert (s + [c])[0] == s[0] && (s + [c])[1..] == s[1..] + [c];
      LeadingLast(s[1..], c, base, sofar * base + DigitValue(s[0]));
    }
  }

  /** Every character of s is a digit of the base, and together they spell n. */
  predicate Spells(s: string, base: nat, n: nat) {
    (forall i :: 0 <= i < |s| ==> DigitValue(s[i]) < base) && Leading(s, base, 0) == n
  }

  lemma SpellsMore(s: string, base: nat, n: nat, c: char)
    requires Spells(s, base, n) && DigitValue(c) < base
    ensures Spells(s + [c], base, n * base + DigitValue(c))
  {
    hide DigitValue, Leading;
    LeadingLast(s, c, base, 0);
  }

  lemma {:induction false} InBaseReadsBack(n: nat, base: nat, upper: bool)
    requires base == 8 || base == 16
    ensures Spells(InBase(n, base, upper), base, n)
    decreases n
  {
    hide Spells, Digit, DigitValue;
    var c := Digit(n % base, upper);
    DigitReadsBack(n % base, upper);
    if n < base {
      NoDigits(base);
      SpellsMore("", base, 0, c);
    } else {
      InBaseReadsBack(n / base, base, upper);
      SpellsMore(InBase(n / base, base, upper), base, n / base, c);
    }
  }

  lemma NoDigits(base: nat)
    ensures Spells("", base, 0)
  {
  }

  /** A hexadecimal number, in capitals or not, with a sign or without, reads back as itself. */
  lemma HexReadsBack(n: nat, upper: bool, x: char)
    requires n <= LONG_MAX && (x == 'x' || x == 'X')
    ensures ParseBase0("0" + [x] + InBase(n, 16, upper)) == Some(n)
    ensures var minus := ParseBase0("-0" + [x] + InBase(n, 16, upper)); minus.Some? && minus.value + n == 0
  {
    hide DigitValue, Leading, InBase;
    var h := InBase(n, 16, upper);
    var s := "0" + [x] + h;
    InBaseReadsBack(n, 16, upper);
    assert s[2..] == h && s[2] == h[0];
    var t := "-0" + [x] + h;
    assert t[1..] == s;
  }

  /** A number with a zero in front is octal. */
  lemma OctalReadsBack(n: nat)
    requires n <= LONG_MAX
    ensures ParseBase0("0" + InBase(n, 8, false)) == Some(n)
  {
    hide DigitValue, Leading, InBase;
    var h := InBase(n, 8, false);
    var s := "0" + h;
    InBaseReadsBack(n, 8, false);
    assert s[1..] == h && s[1] == h[0];
    ZeroInFront(h);
    NotAnX(s);
  }

  lemma ZeroInFront(h: string)
    ensures Leading("0" + h, 8, 0) == Leading(h, 8, 0)
    ensures DigitValue(("0" + h)[0]) == 0
  {
    assert ("0" + h)[1..] == h;
  }

  lemma NotAnX(s: string)
    ensures |s| >= 2 && DigitValue(s[1]) < 8 ==> !HexPrefix(s)
  {
  }

  /** A value that may be set means nothing to a shell that reads the file. */
  lemma TokenNeedsNoQuoting(v: string)
    requires Token(v)
    ensures v != ""
    ensures forall i :: 0 <= i < |v| ==> v[i] !in " \t\r\n\"'`$\\;&|<>()*?[]#~!{}="
  {
  }

  /** Every letter, digit and the five other characters may be part of one. */
  lemma TokenLetters(v: string)
    requires v != "" && forall i :: 0 <= i < |v| ==>
               'a' <= v[i] <= 'z' || 'A' <= v[i] <= 'Z' || '0' <= v[i] <= '9' || v[i] in "_-./:"
    ensures Token(v)
  {
  }
}
