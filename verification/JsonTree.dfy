// JSON values (section 4 of RFC 8259) printed with jsonEscapeString, and what the hand-written reader finds
// in the print.
module JsonTree {
  import opened Options
  import opened JsonText

  // A value with the whitespace a printer may put between its tokens. `Number` is a numeric literal that is
  // not a plain decimal integer.
  datatype Json =
    | Null
    | Bool(b: bool)
    | Int(n: int)
    | Number(literal: string)
    | Str(s: string)
    | Arr(ws: string, items: Items)
    | Obj(ws: string, members: Members)

  datatype Items = NoItems | Items(pre: string, value: Json, post: string, rest: Items)

  datatype Members =
    | NoMembers
    | Members(pre: string, key: string, mid: string, gap: string, value: Json, post: string, rest: Members)

  predicate IsWs(s: string) {
    forall i :: 0 <= i < |s| ==> s[i] == ' ' || s[i] == '\t' || s[i] == '\n' || s[i] == '\r'
  }

  predicate IsLiteral(s: string) {
    s != "" && (IsDigit(s[0]) || s[0] == '-') && forall i :: 0 <= i < |s| ==> IsDigit(s[i]) || s[i] in "+-.eE"
  }

  predicate Proper(j: Json) {
    match j
    case Number(l) => IsLiteral(l)
    case Arr(ws, items) => IsWs(ws) && ProperItems(items)
    case Obj(ws, members) => IsWs(ws) && ProperMembers(members)
    case _ => true
  }

  predicate ProperItems(i: Items) {
    i.NoItems? || (IsWs(i.pre) && Proper(i.value) && IsWs(i.post) && ProperItems(i.rest))
  }

  predicate ProperMembers(m: Members) {
    m.NoMembers? || (IsWs(m.pre) && IsWs(m.mid) && IsWs(m.gap) && Proper(m.value) && IsWs(m.post)
        && ProperMembers(m.rest))
  }

  // ---------------------------------------------------------------- printing in front of a text

  function Decimal(n: nat): string {
    (if n < 10 then "" else Decimal(n / 10)) + ["0123456789"[n % 10]]
  }

  function Atom(j: Json): string {
    match j
    case Null => "null"
    case Bool(b) => if b then "true" else "false"
    case Int(n) => if n < 0 then "-" + Decimal(-n) else Decimal(n)
    case Number(l) => l
    case _ => ""
  }

  function Print(j: Json, rest: string): string
    decreases j, 5
  {
    match j
    case Str(s) => "\"" + (Escape(s) + ("\"" + rest))
    case Arr(ws, items) => "[" + (ws + PrintItems(items, "]" + rest))
    case Obj(ws, members) => "{" + (ws + PrintMembers(members, "}" + rest))
    case _ => Atom(j) + rest
  }

  function PrintItems(i: Items, rest: string): string
    decreases i, 4
  {
    match i
    case NoItems => rest
    case Items(pre, value, post, more) =>
      pre + Print(value, post + if more.NoItems? then rest else "," + PrintItems(more, rest))
  }

  function PrintMembers(m: Members, rest: string): string
    decreases m, 4
  {
    match m
    case NoMembers => rest
    case Members(pre, key, _, _, _, _, _) => pre + ("\"" + (Escape(key) + ("\"" + AfterName(m, rest))))
  }

  // From behind the first member's name on.
  function AfterName(m: Members, rest: string): string
    requires m.Members?
    decreases m, 3
  {
    m.mid + (":" + AfterColon(m, rest))
  }

  function AfterColon(m: Members, rest: string): string
    requires m.Members?
    decreases m, 2
  {
    m.gap + Print(m.value, AfterValue(m, rest))
  }

  function AfterValue(m: Members, rest: string): string
    requires m.Members?
    decreases m, 1
  {
    m.post + if m.rest.NoMembers? then rest else "," + PrintMembers(m.rest, rest)
  }

  // ---------------------------------------------------------------- what a lookup should find

  // The first member of this name, and the text from its colon on.
  function FirstMember(m: Members, key: string): (f: Option<Members>)
    ensures f.Some? ==> f.value.Members? && f.value.key == key
  {
    if m.NoMembers? then None else if m.key == key then Some(m) else FirstMember(m.rest, key)
  }

  function FirstColon(m: Members, key: string, rest: string): Option<string> {
    match FirstMember(m, key)
    case Some(f) => Some(":" + AfterColon(f, rest))
    case None => None
  }

  // A key that needs no escape.
  predicate Plain(key: string) {
    forall i :: 0 <= i < |key| ==> key[i] != '"' && key[i] != '\\' && key[i] >= ' '
  }

  // ---------------------------------------------------------------- scanning strings and plain text

  lemma {:induction false} Peel(c: char, rest: string)
    ensures ([c] + rest)[0] == c && ([c] + rest)[1..] == rest
  {
  }

  lemma {:induction false} ScanEscaped(t: string, rest: string, depth: int, key: string)
    ensures Scan(Escape(t) + ("\"" + rest), depth, true, key) == Scan(rest, depth, false, key)
    decreases |t|
  {
    if t == "" {
      assert Escape(t) + ("\"" + rest) == "\"" + rest;
      Peel('"', rest);
    } else {
      var tail := Escape(t[1..]) + ("\"" + rest);
      assert Escape(t) + ("\"" + rest) == EscapeChar(t[0]) + tail;
      ScanEscapedChar(t[0], tail, depth, key);
      ScanEscaped(t[1..], rest, depth, key);
    }
  }

  // One escaped character leaves the scanner inside the string.
  lemma {:induction false} ScanEscapedChar(c: char, tail: string, depth: int, key: string)
    ensures Scan(EscapeChar(c) + tail, depth, true, key) == Scan(tail, depth, true, key)
  {
    var e := EscapeChar(c);
    if |e| == 1 {
      Peel(c, tail);
    } else {
      assert (e + tail)[2..] == e[2..] + tail;
      if |e| == 2 {
        assert e[2..] + tail == tail;
      } else {
        var h1, h2 := HexDigit(c as int / 16), HexDigit(c as int % 16);
        assert e[2..] + tail == ['0'] + (['0'] + ([h1] + ([h2] + tail)));
        ScanInside('0', ['0'] + ([h1] + ([h2] + tail)), depth, key);
        ScanInside('0', [h1] + ([h2] + tail), depth, key);
        HexIsPlain(c as int / 16);
        HexIsPlain(c as int % 16);
        ScanInside(h1, [h2] + tail, depth, key);
        ScanInside(h2, tail, depth, key);
      }
    }
  }

  lemma {:induction false} HexIsPlain(n: nat)
    requires n < 16
    ensures HexDigit(n) != '"' && HexDigit(n) != '\\'
  {
  }

  lemma {:induction false} ScanInside(c: char, tail: string, depth: int, key: string)
    requires c != '"' && c != '\\'
    ensures Scan([c] + tail, depth, true, key) == Scan(tail, depth, true, key)
  {
  }

  predicate Structural(c: char) {
    c == '"' || c == '{' || c == '[' || c == '}' || c == ']'
  }

  predicate Unstructured(t: string) {
    forall i :: 0 <= i < |t| ==> !Structural(t[i])
  }

  lemma {:induction false} ScanPlain(t: string, rest: string, depth: int, key: string)
    requires Unstructured(t)
    ensures Scan(t + rest, depth, false, key) == Scan(rest, depth, false, key)
  {
    if t == "" {
      assert t + rest == rest;
    } else {
      assert (t + rest)[1..] == t[1..] + rest;
      ScanPlain(t[1..], rest, depth, key);
    }
  }

  // Only a string equal to a plain key starts like it, closing quote included.
  lemma {:induction false} StartsLikeKey(key: string, t: string, rest: string)
    requires Plain(key) && key + "\"" <= Escape(t) + ("\"" + rest)
    ensures t == key
  {
    var s := Escape(t) + ("\"" + rest);
    assert s[0] == (key + "\"")[0] == (if key == "" then '"' else key[0]);
    if t != "" {
      var e := EscapeChar(t[0]);
      assert s[0] == e[0] && e[0] != '"' && (key + "\"")[0] == s[0];
      assert key != "" && key[0] == e[0];
      assert e == [t[0]];
      assert s[1..] == Escape(t[1..]) + ("\"" + rest);
      assert (key + "\"")[1..] == key[1..] + "\"";
      StartsLikeKey(key[1..], t[1..], rest);
      assert t == [t[0]] + t[1..] && key == [key[0]] + key[1..];
    }
  }

  lemma {:induction false} PlainEscape(key: string)
    requires Plain(key)
    ensures Escape(key) == key
  {
    if key != "" {
      assert key == [key[0]] + key[1..];
      PlainEscape(key[1..]);
    }
  }

  // A string that the scanner passes over: below depth one, of another name, or not followed by a colon.
  lemma {:induction false} ScanString(t: string, rest: string, depth: int, key: string)
    requires depth != 1 || (Plain(key) && (t != key || ColonNext(rest).None?))
    ensures Scan("\"" + (Escape(t) + ("\"" + rest)), depth, false, key) == Scan(rest, depth, false, key)
  {
    var inner := Escape(t) + ("\"" + rest);
    var s := "\"" + inner;
    Peel('"', inner);
    if depth == 1 && Needle(key) <= s {
      assert (key + "\"") == Needle(key)[1..] <= s[1..];
      StartsLikeKey(key, t, rest);
      KeyThenRest(key, rest);
    }
    ScanEscaped(t, rest, depth, key);
  }

  lemma {:induction false} KeyThenRest(key: string, rest: string)
    requires Plain(key)
    ensures var s := "\"" + (Escape(key) + ("\"" + rest)); Needle(key) <= s && s[|Needle(key)|..] == rest
  {
    PlainEscape(key);
    assert "\"" + (key + ("\"" + rest)) == Needle(key) + rest;
  }

  // ---------------------------------------------------------------- scanning values

  lemma {:induction false} DecimalDigits(n: nat)
    ensures Decimal(n) != "" && forall i :: 0 <= i < |Decimal(n)| ==> IsDigit(Decimal(n)[i])
  {
    if n >= 10 {
      DecimalDigits(n / 10);
    }
  }

  lemma {:induction false} AtomsAreUnstructured(j: Json)
    requires Proper(j)
    ensures Unstructured(Atom(j))
  {
    if j.Int? {
      DecimalDigits(if j.n < 0 then -j.n else j.n);
    }
  }

  // A value's print is passed over as a whole.
  lemma {:induction false} ScanValue(j: Json, rest: string, depth: int, key: string)
    requires Proper(j) && depth >= 1
    requires depth != 1 || (Plain(key) && ColonNext(rest).None?)
    ensures Scan(Print(j, rest), depth, false, key) == Scan(rest, depth, false, key)
    decreases j, 1
  {
    match j
    case Str(t) => ScanString(t, rest, depth, key);
    case Arr(ws, items) =>
      Peel('[', ws + PrintItems(items, "]" + rest));
      ScanPlain(ws, PrintItems(items, "]" + rest), depth + 1, key);
      ScanItems(items, "]" + rest, depth + 1, key);
      Peel(']', rest);
    case Obj(ws, members) =>
      Peel('{', ws + PrintMembers(members, "}" + rest));
      ScanPlain(ws, PrintMembers(members, "}" + rest), depth + 1, key);
      ScanDeepMembers(members, "}" + rest, depth + 1, key);
      Peel('}', rest);
    case _ =>
      AtomsAreUnstructured(j);
      ScanPlain(Atom(j), rest, depth, key);
  }

  lemma {:induction false} ScanItems(i: Items, rest: string, depth: int, key: string)
    requires ProperItems(i) && depth >= 2
    ensures Scan(PrintItems(i, rest), depth, false, key) == Scan(rest, depth, false, key)
    decreases i, 1
  {
    if i.Items? {
      var more := PrintItems(i.rest, rest);
      var after := if i.rest.NoItems? then rest else "," + more;
      ScanPlain(i.pre, Print(i.value, i.post + after), depth, key);
      ScanValue(i.value, i.post + after, depth, key);
      ScanPlain(i.post, after, depth, key);
      ScanPlain(",", more, depth, key);
      ScanItems(i.rest, rest, depth, key);
    }
  }

  // Below depth one no member is ever taken for the key.
  lemma {:induction false} ScanDeepMembers(m: Members, rest: string, depth: int, key: string)
    requires ProperMembers(m) && depth >= 2
    ensures Scan(PrintMembers(m, rest), depth, false, key) == Scan(rest, depth, false, key)
    decreases m, 1
  {
    if m.Members? {
      ScanPlain(m.pre, "\"" + (Escape(m.key) + ("\"" + AfterName(m, rest))), depth, key);
      ScanString(m.key, AfterName(m, rest), depth, key);
      ScanAfterName(m, rest, depth, key);
      ScanDeepMembers(m.rest, rest, depth, key);
    }
  }

  // The colon, the value and the separator are passed over.
  lemma {:induction false} ScanAfterName(m: Members, rest: string, depth: int, key: string)
    requires m.Members? && ProperMembers(m) && depth >= 1
    requires depth != 1 || (Plain(key) && ColonNext(rest).None?)
    ensures Scan(AfterName(m, rest), depth, false, key) == Scan(PrintMembers(m.rest, rest), depth, false, key)
    decreases m, 0
  {
    var more := PrintMembers(m.rest, rest);
    ScanPlain(m.mid, ":" + AfterColon(m, rest), depth, key);
    ScanPlain(":", AfterColon(m, rest), depth, key);
    ScanPlain(m.gap, Print(m.value, AfterValue(m, rest)), depth, key);
    if depth == 1 {
      NoColonBehind(m, rest);
    }
    ScanValue(m.value, AfterValue(m, rest), depth, key);
    ScanPlain(m.post, if m.rest.NoMembers? then rest else "," + more, depth, key);
    ScanPlain(",", more, depth, key);
  }

  lemma {:induction false} SkipWs(w: string, rest: string)
    requires IsWs(w)
    ensures (w + rest)[SkipSpaces(w + rest)..] == rest[SkipSpaces(rest)..]
  {
    if w == "" {
      assert w + rest == rest;
    } else {
      var s := w + rest;
      assert s[1..] == w[1..] + rest;
      SkipWs(w[1..], rest);
      assert s[SkipSpaces(s)..] == s[1..][SkipSpaces(s[1..])..];
    }
  }

  // Behind a member's value comes a comma or the end of the object, never a colon.
  lemma {:induction false} NoColonBehind(m: Members, rest: string)
    requires m.Members? && ProperMembers(m) && ColonNext(rest).None?
    ensures ColonNext(AfterValue(m, rest)).None?
  {
    SkipWs(m.post, if m.rest.NoMembers? then rest else "," + PrintMembers(m.rest, rest));
  }

  // ---------------------------------------------------------------- key lookup

  // At depth one the first member of the key's name is found, or all members are passed over.
  lemma {:induction false} ScanTopMembers(m: Members, rest: string, key: string)
    requires ProperMembers(m) && Plain(key) && ColonNext(rest).None?
    ensures Scan(PrintMembers(m, rest), 1, false, key)
         == if FirstMember(m, key).Some? then FirstColon(m, key, rest) else Scan(rest, 1, false, key)
  {
    if m.Members? {
      var after := AfterName(m, rest);
      ScanPlain(m.pre, "\"" + (Escape(m.key) + ("\"" + after)), 1, key);
      if m.key == key {
        KeyThenRest(key, after);
        SkipWs(m.mid, ":" + AfterColon(m, rest));
      } else {
        ScanString(m.key, after, 1, key);
        ScanAfterName(m, rest, 1, key);
        ScanTopMembers(m.rest, rest, key);
      }
    }
  }

  // Behind the outermost object nothing is found any more.
  lemma {:induction false} ScanNothing(s: string, key: string)
    requires IsWs(s)
    ensures Scan(s, 0, false, key) == None
  {
    assert s + "" == s;
    ScanPlain(s, "", 0, key);
  }

  // The print of an object with whitespace around it.
  function Document(lead: string, ws: string, m: Members, trail: string): string {
    lead + Print(Obj(ws, m), trail)
  }

  predicate ProperDocument(lead: string, ws: string, m: Members, trail: string) {
    IsWs(lead) && IsWs(ws) && ProperMembers(m) && IsWs(trail)
  }

  // Lookup over arbitrary nesting: the colon found is that of the first top-level member of the name, whatever
  // quotes, braces or key-like text stand in strings and nested values; without such a member none is found.
  lemma {:induction false} LookupFindsFirstMember(lead: string, ws: string, m: Members, trail: string, key: string)
    requires ProperDocument(lead, ws, m, trail) && Plain(key)
    ensures FromColon(Document(lead, ws, m, trail), key) == FirstColon(m, key, "}" + trail)
  {
    var inner := ws + PrintMembers(m, "}" + trail);
    ScanPlain(lead, "{" + inner, 0, key);
    Peel('{', inner);
    ScanPlain(ws, PrintMembers(m, "}" + trail), 1, key);
    assert ColonNext("}" + trail).None?;
    ScanTopMembers(m, "}" + trail, key);
    Peel('}', trail);
    ScanNothing(trail, key);
  }

  // ---------------------------------------------------------------- values

  lemma {:induction false} PrintNeverBlank(j: Json, rest: string)
    requires Proper(j)
    ensures Print(j, rest) != "" && !IsSpace(Print(j, rest)[0])
    ensures Print(j, rest)[0] == '"' <==> j.Str?
  {
    if j.Int? {
      DecimalDigits(if j.n < 0 then -j.n else j.n);
    }
  }

  // The text the readers start from is the print of the first such member's value.
  lemma {:induction false} ValueTextIsPrint(lead: string, ws: string, m: Members, trail: string, key: string)
    requires ProperDocument(lead, ws, m, trail) && Plain(key)
    ensures ValueText(Document(lead, ws, m, trail), key)
         == match FirstMember(m, key)
            case Some(f) => Some(Print(f.value, AfterValue(f, "}" + trail)))
            case None => None
  {
    LookupFindsFirstMember(lead, ws, m, trail, key);
    if FirstMember(m, key).Some? {
      FirstMemberIsProper(m, key);
      var f := FirstMember(m, key).value;
      var text := Print(f.value, AfterValue(f, "}" + trail));
      Peel(':', AfterColon(f, "}" + trail));
      SkipWs(f.gap, text);
      PrintNeverBlank(f.value, AfterValue(f, "}" + trail));
      assert text[SkipSpaces(text)..] == text;
    }
  }

  lemma {:induction false} FirstMemberIsProper(m: Members, key: string)
    requires ProperMembers(m) && FirstMember(m, key).Some?
    ensures ProperMembers(FirstMember(m, key).value)
  {
    if m.key != key {
      FirstMemberIsProper(m.rest, key);
    }
  }

  lemma {:induction false} ReadEscapedChar(c: char, tail: string)
    requires tail != ""
    ensures ReadChars(EscapeChar(c) + tail) == Prepend(c, ReadChars(tail))
  {
    var e := EscapeChar(c);
    var s := e + tail;
    if |e| == 1 {
      Peel(c, tail);
    } else if |e| == 2 {
      assert s[2..] == tail && s[0] == '\\' && s[1] == e[1];
    } else {
      assert s[6..] == tail && s[0] == '\\' && s[1] == 'u' && s[2] == '0' && s[3] == '0' && s[4] == e[4]
          && s[5] == e[5];
      HexOfControl(c);
      assert ShortEscape(s).None?;
      assert UnicodeEscape(s) == Some(c);
    }
  }

  lemma {:induction false} HexOfControl(c: char)
    requires c < ' '
    ensures IsHex(HexDigit(c as int / 16)) && IsHex(HexDigit(c as int % 16))
    ensures HexValue(HexDigit(c as int / 16)) == c as int / 16 && HexValue(HexDigit(c as int % 16)) == c as int % 16
  {
  }

  lemma {:induction false} ReadEscaped(t: string, rest: string)
    ensures ReadChars(Escape(t) + ("\"" + rest)) == Some(t)
    decreases |t|
  {
    if t == "" {
      assert Escape(t) + ("\"" + rest) == "\"" + rest;
    } else {
      var tail := Escape(t[1..]) + ("\"" + rest);
      assert Escape(t) + ("\"" + rest) == EscapeChar(t[0]) + tail;
      ReadEscapedChar(t[0], tail);
      ReadEscaped(t[1..], rest);
      assert t == [t[0]] + t[1..];
    }
  }

  // Strings come back byte for byte; a value that is not a string is reported as none.
  lemma {:induction false} StringRoundTrip(lead: string, ws: string, m: Members, trail: string, key: string)
    requires ProperDocument(lead, ws, m, trail) && Plain(key)
    ensures StringOf(Document(lead, ws, m, trail), key)
         == match FirstMember(m, key)
            case Some(f) => if f.value.Str? then Some(f.value.s) else None
            case None => None
  {
    ValueTextIsPrint(lead, ws, m, trail, key);
    if FirstMember(m, key).Some? {
      FirstMemberIsProper(m, key);
      var f := FirstMember(m, key).value;
      var rest := AfterValue(f, "}" + trail);
      PrintNeverBlank(f.value, rest);
      if f.value.Str? {
        Peel('"', Escape(f.value.s) + ("\"" + rest));
        ReadEscaped(f.value.s, rest);
      }
    }
  }

  // A digit run ends where the value does.
  lemma {:induction false} DigitRunStops(u: string, rest: string)
    requires rest != "" && !IsDigit(rest[0])
    ensures DigitRun(u + rest) == DigitRun(u) && DigitsAt(u + rest) == DigitsAt(u)
  {
    if u == "" {
      assert u + rest == rest;
    } else {
      assert (u + rest)[1..] == u[1..] + rest;
      DigitRunStops(u[1..], rest);
    }
  }

  lemma {:induction false} ReadIntStops(l: string, rest: string)
    requires l != "" && rest != "" && !IsDigit(rest[0])
    ensures ReadInt(l + rest) == ReadInt(l)
  {
    assert (l + rest)[0] == l[0];
    if l[0] == '-' {
      assert (l + rest)[1..] == l[1..] + rest;
      DigitRunStops(l[1..], rest);
    } else {
      DigitRunStops(l, rest);
    }
  }

  lemma {:induction false} AllDigits(ds: string)
    requires forall i :: 0 <= i < |ds| ==> IsDigit(ds[i])
    ensures DigitsAt(ds) == ds
  {
  }

  lemma {:induction false} DecimalValue(n: nat)
    requires forall i :: 0 <= i < |Decimal(n)| ==> IsDigit(Decimal(n)[i])
    ensures DigitsValue(Decimal(n)) == n
  {
    var last := "0123456789"[n % 10];
    assert Decimal(n)[..|Decimal(n)| - 1] == if n < 10 then "" else Decimal(n / 10);
    assert DigitValue(last) == n % 10;
    if n >= 10 {
      DecimalDigits(n / 10);
      DecimalValue(n / 10);
    }
  }

  lemma {:induction false} ReadSigned(ds: string)
    requires ds != "" && forall i :: 0 <= i < |ds| ==> IsDigit(ds[i])
    ensures ReadInt(ds) == StoI(false, ds)
    ensures ReadInt("-" + ds) == StoI(true, ds)
  {
    AllDigits(ds);
    Peel('-', ds);
    assert !IsDigit('-') && IsDigit(ds[0]);
  }

  lemma {:induction false} ReadDecimal(n: int)
    ensures ReadInt(Atom(Int(n))) == if FitsInt32(n) then Some(n) else None
  {
    var size := if n < 0 then -n else n;
    DecimalDigits(size);
    DecimalValue(size);
    ReadSigned(Decimal(size));
  }

  // Integers in decimal come back if they fit 32 bits and are reported as none otherwise; of another numeric
  // literal the reader takes the leading integer; a value that is no number is reported as none.
  lemma {:induction false} IntRoundTrip(lead: string, ws: string, m: Members, trail: string, key: string)
    requires ProperDocument(lead, ws, m, trail) && Plain(key)
    ensures IntOf(Document(lead, ws, m, trail), key)
         == match FirstMember(m, key)
            case Some(f) =>
              if f.value.Int? then (if FitsInt32(f.value.n) then Some(f.value.n) else None)
              else if f.value.Number? then ReadInt(f.value.literal)
              else None
            case None => None
  {
    ValueTextIsPrint(lead, ws, m, trail, key);
    if FirstMember(m, key).Some? {
      FirstMemberIsProper(m, key);
      var f := FirstMember(m, key).value;
      var rest := AfterValue(f, "}" + trail);
      EndsInNonDigit(f, trail);
      if f.value.Int? {
        DecimalDigits(if f.value.n < 0 then -f.value.n else f.value.n);
        ReadIntStops(Atom(f.value), rest);
        ReadDecimal(f.value.n);
      } else if f.value.Number? {
        ReadIntStops(f.value.literal, rest);
      } else {
        NotANumber(f.value, rest);
      }
    }
  }

  lemma {:induction false} EndsInNonDigit(f: Members, trail: string)
    requires f.Members? && IsWs(f.post)
    ensures var rest := AfterValue(f, "}" + trail); rest != "" && !IsDigit(rest[0])
  {
  }

  lemma {:induction false} NotANumber(j: Json, rest: string)
    requires !j.Int? && !j.Number?
    ensures ReadInt(Print(j, rest)) == None
  {
  }

  // Booleans come back, and nothing else does.
  lemma {:induction false} BoolRoundTrip(lead: string, ws: string, m: Members, trail: string, key: string)
    requires ProperDocument(lead, ws, m, trail) && Plain(key)
    ensures BoolOf(Document(lead, ws, m, trail), key)
         == match FirstMember(m, key)
            case Some(f) => if f.value.Bool? then Some(f.value.b) else None
            case None => None
  {
    ValueTextIsPrint(lead, ws, m, trail, key);
    if FirstMember(m, key).Some? {
      FirstMemberIsProper(m, key);
      var f := FirstMember(m, key).value;
      if f.value.Int? {
        DecimalDigits(if f.value.n < 0 then -f.value.n else f.value.n);
      }
      assert "true"[0] == 't' && "false"[0] == 'f';
    }
  }
}
