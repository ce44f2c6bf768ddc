// How a JSON string may be spelled (section 7 of RFC 8259), and which spellings the hand-written reader understands.
module JsonSpelling {
  import opened Options
  import opened JsonText

  // One character of a string as it stands between the quotes.
  datatype Unit = Raw(c: char) | Short(letter: char) | Hex(digits: string)

  predicate Legal(u: Unit) {
    match u
    case Raw(c) => c != '"' && c != '\\' && c >= ' '
    case Short(letter) => letter in "\"\\/bfnrt"
    case Hex(digits) => |digits| == 4 && forall i :: 0 <= i < 4 ==> IsHex(digits[i])
  }

  function TextOf(u: Unit): string {
    match u
    case Raw(c) => [c]
    case Short(letter) => ['\\', letter]
    case Hex(digits) => "\\u" + digits
  }

  function Spelling(us: seq<Unit>): string {
    if us == [] then "" else TextOf(us[0]) + Spelling(us[1..])
  }

  function HexNumber(digits: string): nat
    requires forall i :: 0 <= i < |digits| ==> IsHex(digits[i])
  {
    if digits == "" then 0
    else HexNumber(digits[..|digits| - 1]) * 16 + HexValue(digits[|digits| - 1])
  }

  // Hexadecimal digits in either case.
  lemma {:induction false} HexDigitsCount(n: nat)
    requires n < 16
    ensures IsHex("0123456789abcdef"[n]) && HexValue("0123456789abcdef"[n]) == n
    ensures IsHex("0123456789ABCDEF"[n]) && HexValue("0123456789ABCDEF"[n]) == n
  {
  }

  // The code that a unit stands for.
  function Meaning(u: Unit): int
    requires Legal(u)
  {
    match u
    case Raw(c) => c as int
    case Hex(digits) => HexNumber(digits)
    case Short(letter) =>
      if letter == 'b' then 0x08 else if letter == 't' then 0x09 else if letter == 'n' then 0x0a
      else if letter == 'f' then 0x0c else if letter == 'r' then 0x0d
      else letter as int
  }

  ghost predicate AllLegal(us: seq<Unit>) {
    forall i :: 0 <= i < |us| ==> Legal(us[i])
  }

  function Meanings(us: seq<Unit>): seq<int>
    requires AllLegal(us)
  {
    if us == [] then [] else [Meaning(us[0])] + Meanings(us[1..])
  }

  function Codes(s: string): seq<int> {
    if s == "" then [] else [s[0] as int] + Codes(s[1..])
  }

  // Units that the reader leaves as they stand: an escaped slash, and a \u escape beyond ASCII.
  predicate Foreign(u: Unit)
    requires Legal(u)
  {
    match u
    case Raw(_) => false
    case Short(letter) => letter == '/'
    case Hex(digits) => HexNumber(digits) >= 0x80
  }

  function ReadUnit(u: Unit): string
    requires Legal(u)
  {
    if Foreign(u) then TextOf(u) else [Meaning(u) as char]
  }

  function ReadUnits(us: seq<Unit>): string
    requires AllLegal(us)
  {
    if us == [] then "" else ReadUnit(us[0]) + ReadUnits(us[1..])
  }

  // ---------------------------------------------------------------- what the reader makes of a spelling

  lemma {:induction false} HexOfFour(d: string)
    requires |d| == 4 && forall i :: 0 <= i < 4 ==> IsHex(d[i])
    ensures HexNumber(d) == HexValue(d[0]) * 4096 + HexValue(d[1]) * 256 + HexValue(d[2]) * 16 + HexValue(d[3])
  {
    assert d[..3][..2] == d[..2] && d[..2][..1] == d[..1] && d[..1][..0] == "";
    assert HexNumber(d[..1]) == HexValue(d[0]);
    assert HexNumber(d[..2]) == HexNumber(d[..1]) * 16 + HexValue(d[1]);
    assert HexNumber(d[..3]) == HexNumber(d[..2]) * 16 + HexValue(d[2]);
  }

  // The reader on a \u escape: it decodes exactly the codes below 0x80.
  lemma {:induction false} UnicodeIsAscii(d: string, tail: string)
    requires |d| == 4 && forall i :: 0 <= i < 4 ==> IsHex(d[i])
    ensures UnicodeEscape("\\u" + d + tail)
         == if HexNumber(d) < 0x80 then Some(HexNumber(d) as char) else None
  {
    var s := "\\u" + d + tail;
    assert s[0] == '\\' && s[1] == 'u' && s[2] == d[0] && s[3] == d[1] && s[4] == d[2] && s[5] == d[3];
    HexOfFour(d);
  }

  lemma {:induction false} CopyPlain(c: char, tail: string)
    requires c != '"' && c != '\\'
    ensures ReadChars([c] + tail) == Prepend(c, ReadChars(tail))
  {
    assert ([c] + tail)[1..] == tail;
  }

  // Characters that are no quote and no backslash are copied.
  lemma {:induction false} CopyAll(s: string, tail: string)
    requires forall i :: 0 <= i < |s| ==> s[i] != '"' && s[i] != '\\'
    ensures ReadChars(s + tail) == Behind(s, ReadChars(tail))
  {
    if s == "" {
      assert s + tail == tail;
      BehindNothing(ReadChars(tail));
    } else {
      assert s + tail == [s[0]] + (s[1..] + tail) && [s[0]] + s[1..] == s;
      CopyPlain(s[0], s[1..] + tail);
      CopyAll(s[1..], tail);
      if ReadChars(tail).Some? {
        Associate([s[0]], s[1..], ReadChars(tail).value);
      }
    }
  }

  lemma {:induction false} ReadOneUnit(u: Unit, tail: string)
    requires Legal(u)
    ensures ReadChars(TextOf(u) + tail) == Behind(ReadUnit(u), ReadChars(tail))
  {
    var s := TextOf(u) + tail;
    match u
    case Raw(c) => CopyPlain(c, tail);
    case Short(letter) => ReadShort(letter, tail);
    case Hex(d) =>
      assert s[1..] == ("u" + d) + tail && s[6..] == tail && s == "\\u" + d + tail;
      UnicodeIsAscii(d, tail);
      if HexNumber(d) >= 0x80 {
        forall i | 0 <= i < |"u" + d| ensures ("u" + d)[i] != '"' && ("u" + d)[i] != '\\' {
          assert i > 0 ==> ("u" + d)[i] == d[i - 1];
        }
        CopyAll("u" + d, tail);
        if ReadChars(tail).Some? {
          assert ['\\'] + (("u" + d) + ReadChars(tail).value) == ("\\u" + d) + ReadChars(tail).value;
        }
      }
  }

  lemma {:induction false} ReadShort(letter: char, tail: string)
    requires Legal(Short(letter))
    ensures ReadChars(['\\', letter] + tail) == Behind(ReadUnit(Short(letter)), ReadChars(tail))
  {
    var s := ['\\', letter] + tail;
    assert s[2..] == tail && s[1..] == [letter] + tail;
    if letter == '/' {
      CopyPlain('/', tail);
      if ReadChars(tail).Some? {
        assert ['\\'] + (['/'] + ReadChars(tail).value) == ['\\', '/'] + ReadChars(tail).value;
      }
    }
  }

  // The reader reads every legal spelling, unit by unit, up to the closing quote.
  lemma {:induction false} SpellingIsRead(us: seq<Unit>, rest: string)
    requires AllLegal(us)
    ensures ReadChars(Spelling(us) + ("\"" + rest)) == Some(ReadUnits(us))
  {
    if us == [] {
      assert Spelling(us) + ("\"" + rest) == "\"" + rest;
    } else {
      assert forall i :: 0 <= i < |us[1..]| ==> us[1..][i] == us[i + 1];
      SpellingIsRead(us[1..], rest);
      Associate(TextOf(us[0]), Spelling(us[1..]), "\"" + rest);
      ReadOneUnit(us[0], Spelling(us[1..]) + ("\"" + rest));
    }
  }

  lemma {:induction false} CodesAppend(a: string, b: string)
    ensures Codes(a + b) == Codes(a) + Codes(b)
  {
    if a == "" {
      assert a + b == b;
    } else {
      assert (a + b)[1..] == a[1..] + b;
      CodesAppend(a[1..], b);
    }
  }

  lemma {:induction false} CodesLength(s: string)
    ensures |Codes(s)| == |s|
  {
    if s != "" {
      CodesLength(s[1..]);
    }
  }

  ghost predicate SomeForeign(us: seq<Unit>)
    requires AllLegal(us)
  {
    exists i :: 0 <= i < |us| && Foreign(us[i])
  }

  lemma {:induction false} ReadingIsMeaning(us: seq<Unit>)
    requires AllLegal(us)
    ensures |ReadUnits(us)| >= |Meanings(us)| == |us|
    ensures !SomeForeign(us) ==> Codes(ReadUnits(us)) == Meanings(us)
    ensures SomeForeign(us) ==> |ReadUnits(us)| > |us|
  {
    if us != [] {
      var rest := us[1..];
      assert forall i :: 0 <= i < |rest| ==> rest[i] == us[i + 1];
      ReadingIsMeaning(rest);
      CodesAppend(ReadUnit(us[0]), ReadUnits(rest));
      assert Codes(ReadUnit(us[0])) == if Foreign(us[0]) then Codes(TextOf(us[0])) else [Meaning(us[0])] by {
        if !Foreign(us[0]) {
          assert Codes([Meaning(us[0]) as char]) == [Meaning(us[0])] + Codes([]);
        }
      }
      if i :| 0 <= i < |us| && Foreign(us[i]) {
        assert i > 0 ==> Foreign(rest[i - 1]);
      }
      if i :| 0 <= i < |rest| && Foreign(rest[i]) {
        assert Foreign(us[i + 1]);
      }
    }
  }

  // A string comes back as what its spelling means if and only if the spelling escapes no slash and uses \u below 0x80
  // only.
  lemma {:induction false} ReadAsMeantIff(us: seq<Unit>, rest: string)
    requires AllLegal(us)
    ensures var r := ReadChars(Spelling(us) + ("\"" + rest));
            r.Some? && (Codes(r.value) == Meanings(us) <==> !SomeForeign(us))
  {
    SpellingIsRead(us, rest);
    ReadingIsMeaning(us);
    CodesLength(ReadUnits(us));
  }

  // ---------------------------------------------------------------- what the writer writes

  function UnitFor(c: char): Unit {
    if c == '"' || c == '\\' then Short(c)
    else if c == '\n' then Short('n') else if c == '\r' then Short('r') else if c == '\t' then Short('t')
    else if c < ' ' then Hex("00" + [HexDigit(c as int / 16), HexDigit(c as int % 16)])
    else Raw(c)
  }

  function UnitsFor(s: string): seq<Unit> {
    if s == "" then [] else [UnitFor(s[0])] + UnitsFor(s[1..])
  }

  lemma {:induction false} DigitIsHex(n: nat)
    requires n < 16
    ensures IsHex(HexDigit(n)) && HexValue(HexDigit(n)) == n
  {
  }

  lemma {:induction false} ControlIsHex(c: char)
    requires c < ' '
    ensures var d := "00" + [HexDigit(c as int / 16), HexDigit(c as int % 16)];
            && Legal(Hex(d)) && HexNumber(d) == c as int
            && "\\u" + d == "\\u00" + [HexDigit(c as int / 16), HexDigit(c as int % 16)]
  {
    var a, b := HexDigit(c as int / 16), HexDigit(c as int % 16);
    DigitIsHex(c as int / 16);
    DigitIsHex(c as int % 16);
    hide HexDigit;
    var d := "00" + [a, b];
    assert d[0] == '0' && d[1] == '0' && d[2] == a && d[3] == b && |d| == 4;
    assert forall i :: 0 <= i < 4 ==> IsHex(d[i]);
    HexOfFour(d);
    hide HexNumber;
  }

  lemma {:induction false} UnitIsLegal(c: char)
    ensures Legal(UnitFor(c)) && TextOf(UnitFor(c)) == EscapeChar(c) && Meaning(UnitFor(c)) == c as int
    ensures !Foreign(UnitFor(c))
  {
    if c < ' ' {
      ControlIsHex(c);
    }
    hide HexNumber, HexDigit;
  }

  // The escaped text is a legal spelling of the text itself, and one that the reader understands.
  lemma {:induction false} EscapeIsSpelling(s: string)
    ensures AllLegal(UnitsFor(s)) && Spelling(UnitsFor(s)) == Escape(s) && Meanings(UnitsFor(s)) == Codes(s)
    ensures !SomeForeign(UnitsFor(s))
  {
    if s != "" {
      UnitIsLegal(s[0]);
      EscapeIsSpelling(s[1..]);
      var us := UnitsFor(s);
      assert us[1..] == UnitsFor(s[1..]);
      forall i | 0 <= i < |us| ensures Legal(us[i]) && !Foreign(us[i]) {
        assert i > 0 ==> us[i] == UnitsFor(s[1..])[i - 1];
      }
    }
  }
}
