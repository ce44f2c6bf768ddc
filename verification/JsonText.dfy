// The hand-written JSON reader (core/src/json_utils.cpp): finding a top-level member by its key and reading
// its value. A byte is a `char`; only the values named below are ever told apart.
module JsonText {
  import opened Options

  // ---------------------------------------------------------------- characters

  // std::isspace in the C locale.
  predicate IsSpace(c: char) { c == ' ' || '\t' <= c <= '\r' }

  predicate IsDigit(c: char) { '0' <= c <= '9' }

  predicate IsHex(c: char) { '0' <= c <= '9' || 'a' <= c <= 'f' || 'A' <= c <= 'F' }

  function SkipSpaces(s: string): nat
    ensures SkipSpaces(s) <= |s|
  {
    if s != "" && IsSpace(s[0]) then 1 + SkipSpaces(s[1..]) else 0
  }

  // ---------------------------------------------------------------- writing: jsonEscapeString

  function HexDigit(n: nat): char
    requires n < 16
  {
    "0123456789abcdef"[n]
  }

  function EscapeChar(c: char): string {
    if c == '"' then "\\\"" else if c == '\\' then "\\\\"
    else if c == '\n' then "\\n" else if c == '\r' then "\\r" else if c == '\t' then "\\t"
    else if c < ' ' then "\\u00" + [HexDigit(c as int / 16), HexDigit(c as int % 16)]
    else [c]
  }

  function Escape(s: string): string {
    if s == "" then "" else EscapeChar(s[0]) + Escape(s[1..])
  }

  lemma {:induction false} Associate(a: string, b: string, c: string)
    ensures a + (b + c) == a + b + c
  {
  }

  method JsonEscapeString(s: string) returns (out: string)
    ensures out == Escape(s)
  {
    out := "";
    var i := 0;
    while i < |s|
      invariant 0 <= i <= |s|
      invariant out + Escape(s[i..]) == Escape(s)
    {
      var e := EscapeChar(s[i]);
      assert s[i..][1..] == s[i + 1..];
      Associate(out, e, Escape(s[i + 1..]));
      out := out + e;
      i := i + 1;
    }
    assert s[i..] == "" && out + "" == out;
  }

  // ---------------------------------------------------------------- the scanner

  function Needle(key: string): string { "\"" + key + "\"" }

  // The text from the ':' on that comes next, spaces aside.
  function ColonNext(s: string): Option<string> {
    var t := s[SkipSpaces(s)..];
    if t != "" && t[0] == ':' then Some(t) else None
  }

  // What the scanner finds in the text `s` left to read: the text from the key's colon on.
  function Scan(s: string, depth: int, inString: bool, key: string): Option<string>
    decreases |s|
  {
    if s == "" then None
    else if inString then
      if s[0] == '\\' && |s| > 1 then Scan(s[2..], depth, true, key)
      else Scan(s[1..], depth, s[0] != '"', key)
    else if s[0] == '"' then
      if depth == 1 && Needle(key) <= s && ColonNext(s[|Needle(key)|..]).Some? then ColonNext(s[|Needle(key)|..])
      else Scan(s[1..], depth, true, key)
    else if s[0] == '{' || s[0] == '[' then Scan(s[1..], depth + 1, false, key)
    else if s[0] == '}' || s[0] == ']' then Scan(s[1..], depth - 1, false, key)
    else Scan(s[1..], depth, false, key)
  }

  // The text from the colon of the key's top-level member on.
  function FromColon(body: string, key: string): Option<string> {
    Scan(body, 0, false, key)
  }

  // The loops that skip whitespace.
  method SkipSpacesFrom(body: string, start: nat) returns (i: nat)
    requires start <= |body|
    ensures i == start + SkipSpaces(body[start..]) && i <= |body|
  {
    i := start;
    while i < |body| && IsSpace(body[i])
      invariant start <= i <= |body|
      invariant SkipSpaces(body[start..]) == i - start + SkipSpaces(body[i..])
    {
      assert body[i..][1..] == body[i + 1..];
      i := i + 1;
    }
  }

  lemma {:induction false} ColonAt(body: string, start: nat, j: nat)
    requires start <= j <= |body| && j == start + SkipSpaces(body[start..])
    ensures ColonNext(body[start..]) == if j < |body| && body[j] == ':' then Some(body[j..]) else None
  {
    assert body[start..][j - start..] == body[j..];
  }

  method FindTopLevelKeyColon(body: string, key: string) returns (r: Option<nat>)
    ensures r.None? <==> FromColon(body, key).None?
    ensures r.Some? ==> r.value < |body| && body[r.value] == ':' && FromColon(body, key) == Some(body[r.value..])
  {
    hide Needle, ColonNext, SkipSpaces;
    var needle := Needle(key);
    var depth, inString := 0, false;
    var i := 0;
    assert body[0..] == body;
    while i < |body|
      invariant 0 <= i <= |body|
      invariant Scan(body[i..], depth, inString, key) == FromColon(body, key)
    {
      var c := body[i];
      assert body[i..][1..] == body[i + 1..];
      if inString {
        if c == '\\' && i + 1 < |body| {
          assert body[i..][2..] == body[i + 2..];
          i := i + 1;
        } else if c == '"' {
          inString := false;
        }
      } else if c == '"' {
        if depth == 1 && needle <= body[i..] {
          var j := SkipSpacesFrom(body, i + |needle|);
          assert body[i..][|needle|..] == body[i + |needle|..];
          ColonAt(body, i + |needle|, j);
          if j < |body| && body[j] == ':' {
            return Some(j);
          }
        }
        inString := true;
      } else if c == '{' || c == '[' {
        depth := depth + 1;
      } else if c == '}' || c == ']' {
        depth := depth - 1;
      }
      i := i + 1;
    }
    assert body[i..] == "";
    r := None;
  }

  // ---------------------------------------------------------------- the readers

  // What follows a text's first character, spaces aside.
  function Rest(s: string): string
    requires s != ""
  {
    s[1..][SkipSpaces(s[1..])..]
  }

  // The text from the key's value on.
  function ValueText(body: string, key: string): Option<string> {
    match FromColon(body, key)
    case Some(s) => if s != "" then Some(Rest(s)) else None
    case None => None
  }

  method SeekValue(body: string, colon: nat) returns (i: nat)
    requires colon < |body|
    ensures i <= |body| && Rest(body[colon..]) == body[i..]
  {
    i := SkipSpacesFrom(body, colon + 1);
    assert body[colon..][1..] == body[colon + 1..];
    assert body[colon + 1..][i - colon - 1..] == body[i..];
  }

  function HexValue(c: char): nat
    requires IsHex(c)
  {
    if c <= '9' then c as int - '0' as int
    else if 'a' <= c then c as int - 'a' as int + 10
    else c as int - 'A' as int + 10
  }

  // A \u escape below 0x80, the only kind the reader decodes.
  function UnicodeEscape(s: string): Option<char> {
    if |s| > 5 && s[0] == '\\' && s[1] == 'u' && IsHex(s[2]) && IsHex(s[3]) && IsHex(s[4]) && IsHex(s[5])
       && HexValue(s[2]) == 0 && HexValue(s[3]) == 0 && HexValue(s[4]) < 8
    then Some((HexValue(s[4]) * 16 + HexValue(s[5])) as char)
    else None
  }

  // What a two-character escape stands for.
  function ShortEscape(s: string): Option<char> {
    if |s| < 2 || s[0] != '\\' then None
    else match s[1]
         case '"' => Some('"')
         case '\\' => Some('\\')
         case 'n' => Some('\n')
         case 't' => Some('\t')
         case 'r' => Some('\r')
         case 'b' => Some(8 as char)
         case 'f' => Some(12 as char)
         case _ => None
  }

  // The string up to the closing quote; unknown escapes are copied as they stand.
  function ReadChars(s: string): Option<string>
    decreases |s|
  {
    if s == "" then None
    else if s[0] == '"' then Some("")
    else if ShortEscape(s).Some? then Prepend(ShortEscape(s).value, ReadChars(s[2..]))
    else if UnicodeEscape(s).Some? then Prepend(UnicodeEscape(s).value, ReadChars(s[6..]))
    else Prepend(s[0], ReadChars(s[1..]))
  }

  function Prepend(c: char, r: Option<string>): Option<string> {
    match r case Some(t) => Some([c] + t) case None => None
  }

  function ReadString(t: string): Option<string> {
    if t != "" && t[0] == '"' then ReadChars(t[1..]) else None
  }

  function StringOf(body: string, key: string): Option<string> {
    match ValueText(body, key) case Some(t) => ReadString(t) case None => None
  }

  function Behind(result: string, r: Option<string>): Option<string> {
    match r case Some(t) => Some(result + t) case None => None
  }

  // The unescaping loop, from just behind the opening quote.
  method ReadCharsFrom(body: string, start: nat) returns (r: Option<string>)
    requires start <= |body|
    ensures r == ReadChars(body[start..])
  {
    var i := start;
    var result := "";
    BehindNothing(ReadChars(body[i..]));
    while i < |body| && body[i] != '"'
      invariant start <= i <= |body|
      invariant Behind(result, ReadChars(body[i..])) == ReadChars(body[start..])
    {
      var s := body[i..];
      var c, n := s[0], 1;
      if ShortEscape(s).Some? {
        c, n := ShortEscape(s).value, 2;
      } else if UnicodeEscape(s).Some? {
        c, n := UnicodeEscape(s).value, 6;
      }
      assert s[n..] == body[i + n..];
      assert ReadChars(s) == Prepend(c, ReadChars(s[n..]));
      BehindPrepend(result, c, ReadChars(s[n..]));
      result, i := result + [c], i + n;
    }
    assert i == |body| ==> body[i..] == "";
    assert result + "" == result;
    r := if i < |body| then Some(result) else None;
  }

  method ExtractJsonString(body: string, key: string) returns (r: Option<string>)
    ensures r == StringOf(body, key)
  {
    var colon := FindTopLevelKeyColon(body, key);
    if colon.None? {
      return None;
    }
    var i := SeekValue(body, colon.value);
    if i >= |body| || body[i] != '"' {
      return None;
    }
    assert body[i..][1..] == body[i + 1..];
    r := ReadCharsFrom(body, i + 1);
  }

  lemma {:induction false} BehindNothing(r: Option<string>)
    ensures Behind("", r) == r
  {
    assert r.Some? ==> "" + r.value == r.value;
  }

  lemma {:induction false} BehindPrepend(result: string, c: char, r: Option<string>)
    ensures Behind(result, Prepend(c, r)) == Behind(result + [c], r)
  {
    if r.Some? {
      assert result + ([c] + r.value) == result + [c] + r.value;
    }
  }

  // ---------------------------------------------------------------- integers and booleans

  function DigitRun(s: string): nat
    ensures DigitRun(s) <= |s|
    ensures forall i :: 0 <= i < DigitRun(s) ==> IsDigit(s[i])
    ensures DigitRun(s) < |s| ==> !IsDigit(s[DigitRun(s)])
  {
    if s != "" && IsDigit(s[0]) then 1 + DigitRun(s[1..]) else 0
  }

  function DigitValue(c: char): nat
    requires IsDigit(c)
  {
    c as int - '0' as int
  }

  function DigitsValue(ds: string): nat
    requires forall i :: 0 <= i < |ds| ==> IsDigit(ds[i])
  {
    if ds == "" then 0 else DigitsValue(ds[..|ds| - 1]) * 10 + DigitValue(ds[|ds| - 1])
  }

  predicate FitsInt32(n: int) { -0x8000_0000 <= n < 0x8000_0000 }

  function DigitsAt(u: string): (ds: string)
    ensures forall i :: 0 <= i < |ds| ==> IsDigit(ds[i])
  {
    u[..DigitRun(u)]
  }

  // std::stoi on a sign and digits.
  function StoI(negative: bool, ds: string): Option<int>
    requires forall i :: 0 <= i < |ds| ==> IsDigit(ds[i])
  {
    var n: int := if negative then 0 - DigitsValue(ds) else DigitsValue(ds);
    if FitsInt32(n) then Some(n) else None
  }

  // An optional minus and a digit run.
  function ReadInt(t: string): Option<int> {
    var negative := t != "" && t[0] == '-';
    var ds := DigitsAt(if negative then t[1..] else t);
    if ds == "" then None else StoI(negative, ds)
  }

  function IntOf(body: string, key: string): Option<int> {
    match ValueText(body, key) case Some(t) => ReadInt(t) case None => None
  }

  method DigitsFrom(body: string, start: nat) returns (ds: string)
    requires start <= |body|
    ensures ds == DigitsAt(body[start..])
  {
    var i := start;
    while i < |body| && IsDigit(body[i])
      invariant start <= i <= |body|
      invariant DigitRun(body[start..]) == i - start + DigitRun(body[i..])
    {
      assert body[i..][1..] == body[i + 1..];
      i := i + 1;
    }
    ds := body[start..i];
    assert ds == body[start..][..i - start];
  }

  method ReadIntFrom(body: string, at: nat) returns (r: Option<int>)
    requires at <= |body|
    ensures r == ReadInt(body[at..])
  {
    var start := at;
    var negative := start < |body| && body[start] == '-';
    if negative {
      assert body[start..][1..] == body[start + 1..];
      start := start + 1;
    }
    var ds := DigitsFrom(body, start);
    r := if ds == "" then None else StoI(negative, ds);
  }

  method ExtractJsonInt(body: string, key: string) returns (r: Option<int>)
    ensures r == IntOf(body, key)
  {
    var colon := FindTopLevelKeyColon(body, key);
    if colon.None? {
      return None;
    }
    var i := SeekValue(body, colon.value);
    r := ReadIntFrom(body, i);
  }

  function ReadBool(t: string): Option<bool> {
    if "true" <= t then Some(true) else if "false" <= t then Some(false) else None
  }

  function BoolOf(body: string, key: string): Option<bool> {
    match ValueText(body, key) case Some(t) => ReadBool(t) case None => None
  }

  method ExtractJsonBool(body: string, key: string) returns (r: Option<bool>)
    ensures r == BoolOf(body, key)
  {
    var colon := FindTopLevelKeyColon(body, key);
    if colon.None? {
      return None;
    }
    var i := SeekValue(body, colon.value);
    if "true" <= body[i..] {
      return Some(true);
    }
    if "false" <= body[i..] {
      return Some(false);
    }
    r := None;
  }
}
