// Reading an HTTP/1.1 response: status line, header fields and body (sections 2.1, 4 and 5 of RFC 9112). Field names
// are compared as they are written.
module HttpReader {
  import opened Options
  import opened JsonText
  import opened JsonTree
  import opened SseWire

  datatype Message = Message(status: int, fields: seq<string>, body: string)

  // The text up to the first CRLF, and the text behind it.
  function UntilCrlf(s: string): (r: Option<(string, string)>)
    ensures r.Some? ==> |r.value.1| < |s|
  {
    if |s| < 2 then None
    else if s[0] == '\r' && s[1] == '\n' then Some(("", s[2..]))
    else match UntilCrlf(s[1..]) case Some((line, rest)) => Some(([s[0]] + line, rest)) case None => None
  }

  // The header fields up to the empty line, and the body behind it.
  function ReadFields(s: string): Option<(seq<string>, string)>
    decreases |s|
  {
    match UntilCrlf(s)
    case None => None
    case Some((line, rest)) =>
      if line == "" then Some(([], rest))
      else match ReadFields(rest) case Some((fields, body)) => Some(([line] + fields, body)) case None => None
  }

  predicate OnlyDigits(s: string) { forall i :: 0 <= i < |s| ==> IsDigit(s[i]) }

  // Version, three digits, reason.
  function StatusOf(line: string): Option<int> {
    if "HTTP/1.1 " <= line && |line| > 12 && OnlyDigits(line[9..12]) && line[12] == ' '
    then Some(DigitsValue(line[9..12])) else None
  }

  function ReadMessage(s: string): Option<Message> {
    match UntilCrlf(s)
    case None => None
    case Some((line, rest)) =>
      match (StatusOf(line), ReadFields(rest))
      case (Some(status), Some((fields, body))) => Some(Message(status, fields, body))
      case _ => None
  }

  function FieldValue(fields: seq<string>, name: string): Option<string> {
    if fields == [] then None
    else if name + ": " <= fields[0] then Some(fields[0][|name| + 2..])
    else FieldValue(fields[1..], name)
  }

  function DeclaredLength(m: Message): Option<nat> {
    match FieldValue(m.fields, "Content-Length")
    case Some(v) => if v != "" && OnlyDigits(v) then Some(DigitsValue(v)) else None
    case None => None
  }

  // ---------------------------------------------------------------- reading what was written

  predicate OneLine(s: string) { '\r' !in s }

  lemma {:induction false} LineThenRest(line: string, rest: string)
    requires OneLine(line)
    ensures UntilCrlf(line + ("\r\n" + rest)) == Some((line, rest))
  {
    var s := line + ("\r\n" + rest);
    if line == "" {
      assert s == "\r\n" + rest && s[2..] == rest;
    } else {
      assert s[1..] == line[1..] + ("\r\n" + rest);
      LineThenRest(line[1..], rest);
      assert [line[0]] + line[1..] == line;
    }
  }

  // Every line with its CRLF, then an empty line, then the body.
  function Head(lines: seq<string>, body: string): string {
    if lines == [] then "\r\n" + body else lines[0] + ("\r\n" + Head(lines[1..], body))
  }

  lemma {:induction false} FieldsReadBack(lines: seq<string>, body: string)
    requires forall i :: 0 <= i < |lines| ==> lines[i] != "" && OneLine(lines[i])
    ensures ReadFields(Head(lines, body)) == Some((lines, body))
  {
    if lines == [] {
      LineThenRest("", body);
      assert "" + ("\r\n" + body) == "\r\n" + body;
    } else {
      FieldsReadBack(lines[1..], body);
      LineThenRest(lines[0], Head(lines[1..], body));
      assert [lines[0]] + lines[1..] == lines;
    }
  }

  // A message of a status line and fields, written line by line.
  lemma {:induction false} MessageReadsBack(digits: string, reason: string, fields: seq<string>, body: string)
    requires |digits| == 3 && OnlyDigits(digits) && OneLine(reason)
    requires forall i :: 0 <= i < |fields| ==> fields[i] != "" && OneLine(fields[i])
    ensures ReadMessage(Head(["HTTP/1.1 " + digits + " " + reason] + fields, body))
         == Some(Message(DigitsValue(digits), fields, body))
  {
    var line := "HTTP/1.1 " + digits + " " + reason;
    assert ([line] + fields)[1..] == fields;
    StatusReadsBack(digits, reason);
    FieldsReadBack(fields, body);
    LineThenRest(line, Head(fields, body));
  }

  lemma {:induction false} StatusReadsBack(digits: string, reason: string)
    requires |digits| == 3 && OnlyDigits(digits) && OneLine(reason)
    ensures var line := "HTTP/1.1 " + digits + " " + reason;
            StatusOf(line) == Some(DigitsValue(digits)) && OneLine(line)
  {
    var line := "HTTP/1.1 " + digits + " " + reason;
    assert line[9..12] == digits && line[..9] == "HTTP/1.1 ";
    assert forall i :: 0 <= i < 3 ==> IsDigit(digits[i]);
    assert OneLine("HTTP/1.1 ") && OneLine(digits) && OneLine(" ");
  }

  lemma {:induction false} NumberReadsBack(n: nat)
    ensures ToString(n) != "" && OnlyDigits(ToString(n)) && DigitsValue(ToString(n)) == n
    ensures OneLine(ToString(n))
  {
    DecimalDigits(n);
    DecimalValue(n);
    assert forall i :: 0 <= i < |Decimal(n)| ==> IsDigit(Decimal(n)[i]) && Decimal(n)[i] != '\r';
  }

  lemma {:induction false} ThreeDigits(n: nat)
    requires 100 <= n <= 999
    ensures |ToString(n)| == 3
  {
    assert |Decimal(n / 10 / 10)| == 1;
    assert |Decimal(n / 10)| == 2;
  }
}
