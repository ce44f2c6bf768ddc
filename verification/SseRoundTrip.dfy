// What the reader yields from what the writer wrote, however the stream is cut and wherever it breaks off.
module SseRoundTrip {
  import opened Options
  import opened JsonText
  import opened JsonTree
  import opened SseWire

  // What a frame means to a client.
  function Said(f: Frame): SseFrame {
    match f
    case Content(text) => SseFrame(None, Normalise(text))
    case Usage(p, c, reason) => SseFrame(Some("usage"), UsagePayload(p, c, reason))
    case Done => SseFrame(None, "[DONE]")
    case Failure(message) => SseFrame(Some("error"), ErrorPayload(message))
  }

  // The frames up to the first that says [DONE], and whether the stream counts as ended properly.
  function ReaderView(fs: seq<Frame>, saw: bool): (seq<SseFrame>, bool) {
    if fs == [] then ([], saw)
    else
      var s := Said(fs[0]);
      if s.data == "[DONE]" then ([], true)
      else var (ys, ok) := ReaderView(fs[1..], saw || s.event == Some("error")); ([s] + ys, ok)
  }

  // ---------------------------------------------------------------- frames hold no blank line

  // No LF ends the text or is followed by another one.
  predicate Solid(b: string) {
    forall i :: 0 <= i < |b| && b[i] == '\n' ==> i + 1 < |b| && b[i + 1] != '\n'
  }

  predicate FullLine(l: string) {
    l != "" && NoNewline(l)
  }

  lemma {:induction false} JoinSolid(ls: seq<string>)
    requires ls != [] && forall i :: 0 <= i < |ls| ==> FullLine(ls[i])
    ensures JoinLines(ls) != "" && Solid(JoinLines(ls)) && JoinLines(ls)[0] != '\n'
  {
    if |ls| > 1 {
      JoinSolid(ls[1..]);
      var a, b := ls[0], JoinLines(ls[1..]);
      var s := a + ("\n" + b);
      forall i | 0 <= i < |s| && s[i] == '\n' ensures i + 1 < |s| && s[i + 1] != '\n' {
        if i > |a| {
          assert s[i] == b[i - |a| - 1];
          assert b[i - |a|] != '\n';
        }
      }
    }
  }

  lemma {:induction false} SolidThenBlank(b: string, tail: string)
    requires Solid(b)
    ensures FirstBlank(b + ("\n\n" + tail)) == Some(|b|)
  {
    var s := b + ("\n\n" + tail);
    if b != "" {
      assert s[1..] == b[1..] + ("\n\n" + tail);
      assert Solid(b[1..]);
      assert |b| > 1 ==> s[1] == b[1];
      SolidThenBlank(b[1..], tail);
    }
  }

  lemma {:induction false} SplitOffFrame(b: string, tail: string)
    requires Solid(b)
    ensures Pieces(b + ("\n\n" + tail)) == [b] + Pieces(tail)
  {
    var s := b + ("\n\n" + tail);
    SolidThenBlank(b, tail);
    assert s[..|b|] == b && s[|b| + 2..] == tail;
  }

  // ---------------------------------------------------------------- one frame

  lemma {:induction false} EscapeHasNoNewline(s: string)
    ensures NoNewline(Escape(s))
  {
    if s != "" {
      EscapeHasNoNewline(s[1..]);
      EscapedCharHasNoNewline(s[0]);
    }
  }

  lemma {:induction false} EscapedCharHasNoNewline(c: char)
    ensures NoNewline(EscapeChar(c))
  {
  }

  lemma {:induction false} NumberHasNoNewline(n: int)
    ensures NoNewline(ToString(n))
  {
    DecimalDigits(if n < 0 then -n else n);
  }

  lemma {:induction false} DataLinesFacts(ls: seq<string>)
    requires forall i :: 0 <= i < |ls| ==> NoNewline(ls[i])
    ensures |DataLines(ls)| == |ls| && forall i :: 0 <= i < |ls| ==> FullLine(DataLines(ls)[i])
    ensures DataOf(DataLines(ls)) == ls && EventOf(DataLines(ls)) == None
  {
    if ls != [] {
      DataLinesFacts(ls[1..]);
      var d := "data: " + ls[0];
      assert d[6..] == ls[0] && d[0] == 'd' && "event: "[0] == 'e';
      assert ls == [ls[0]] + ls[1..];
    }
  }

  // An event line and a data line.
  lemma {:induction false} EventFrameFacts(event: string, payload: string)
    requires NoNewline(event) && NoNewline(payload)
    ensures var ls := ["event: " + event, "data: " + payload];
            && FullLine(ls[0]) && FullLine(ls[1])
            && DataOf(ls) == [payload] && EventOf(ls) == Some(event)
  {
    var ls := ["event: " + event, "data: " + payload];
    assert ls[0][0] == 'e' && "data: "[0] == 'd' && ls[0][7..] == event && ls[1][6..] == payload;
    assert ls[1..] == [ls[1]] && ls[1..][1..] == [];
    assert DataOf(ls[1..]) == [payload] + DataOf([]);
  }

  lemma {:induction false} NoNewlineConcat(a: string, b: string)
    requires NoNewline(a) && NoNewline(b)
    ensures NoNewline(a + b)
  {
  }

  lemma {:induction false} UsageHasNoNewline(p: int, c: int, reason: string)
    ensures NoNewline(UsagePayload(p, c, reason))
  {
    NumberHasNoNewline(p);
    NumberHasNoNewline(c);
    EscapeHasNoNewline(reason);
    var a := "{\"prompt_tokens\":" + ToString(p);
    var b := a + ",\"completion_tokens\":";
    NoNewlineConcat(b, ToString(c));
    var d := b + ToString(c) + ",\"finish_reason\":\"";
    NoNewlineConcat(d, Escape(reason));
    NoNewlineConcat(d + Escape(reason), "\"}");
  }

  lemma {:induction false} ErrorHasNoNewline(message: string)
    ensures NoNewline(ErrorPayload(message))
  {
    EscapeHasNoNewline(message);
  }

  // The lines of a frame are full lines, and they say what the frame means.
  predicate Speaks(lines: seq<string>, s: SseFrame) {
    && lines != [] && (forall i :: 0 <= i < |lines| ==> FullLine(lines[i]))
    && DataOf(lines) != [] && SseFrame(EventOf(lines), JoinLines(DataOf(lines))) == s
  }

  lemma {:induction false} TwoLinesSpeak(event: string, payload: string)
    requires NoNewline(event) && NoNewline(payload)
    ensures Speaks(["event: " + event, "data: " + payload], SseFrame(Some(event), payload))
  {
    EventFrameFacts(event, payload);
  }

  lemma {:induction false} ContentSpeaks(text: string)
    ensures Speaks(DataLines(Lines(text)), SseFrame(None, Normalise(text)))
  {
    LinesFacts(text);
    DataLinesFacts(Lines(text));
  }

  lemma {:induction false} DoneSpeaks()
    ensures Speaks(["data: [DONE]"], SseFrame(None, "[DONE]"))
  {
    var ls := ["[DONE]"];
    DataLinesFacts(ls);
    assert ls[1..] == [] && "data: " + ls[0] == "data: [DONE]";
    assert DataLines(ls) == ["data: " + ls[0]] + DataLines([]);
  }

  lemma {:induction false} FrameSpeaks(f: Frame)
    ensures Speaks(FrameLines(f), Said(f))
  {
    hide Speaks, UsagePayload, ErrorPayload;
    match f
    case Content(text) =>
      ContentSpeaks(text);
    case Usage(p, c, reason) =>
      UsageHasNoNewline(p, c, reason);
      TwoLinesSpeak("usage", UsagePayload(p, c, reason));
      assert "event: " + "usage" == "event: usage";
    case Done =>
      DoneSpeaks();
    case Failure(message) =>
      ErrorHasNoNewline(message);
      TwoLinesSpeak("error", ErrorPayload(message));
      assert "event: " + "error" == "event: error";
  }

  lemma {:induction false} FrameIsSolid(f: Frame)
    ensures Solid(FrameText(f))
  {
    FrameSpeaks(f);
    JoinSolid(FrameLines(f));
  }

  lemma {:induction false} InterpretFrame(f: Frame)
    ensures Interpret(FrameText(f)) == Some(Said(f))
  {
    FrameSpeaks(f);
    SplitJoined(FrameLines(f));
  }

  // ---------------------------------------------------------------- line breaks

  // No CR reaches the wire: a reader that also ends lines there sees the same lines.
  lemma {:induction false} FrameHasNoCr(f: Frame)
    ensures '\r' !in FrameText(f)
  {
    match f
    case Content(text) =>
      LinesHaveNoCr(text);
      DataHasNoCr(Lines(text));
    case Usage(p, c, reason) =>
      PayloadHasNoCr(p, c, reason);
      TwoLinesHaveNoCr("event: usage", "data: " + UsagePayload(p, c, reason));
    case Done =>
      assert FrameLines(f)[0] == "data: [DONE]";
    case Failure(message) =>
      EscapeHasNoCr(message);
      TwoLinesHaveNoCr("event: error", "data: " + ErrorPayload(message));
  }

  lemma {:induction false} TwoLinesHaveNoCr(a: string, b: string)
    requires '\r' !in a && '\r' !in b
    ensures '\r' !in JoinLines([a, b])
  {
    assert [a, b][1..] == [b];
  }

  lemma {:induction false} LinesHaveNoCr(s: string)
    ensures forall l :: l in Lines(s) ==> '\r' !in l
    decreases |s|
  {
    if s != "" {
      if s[0] == '\r' && |s| > 1 && s[1] == '\n' {
        LinesHaveNoCr(s[2..]);
      } else {
        LinesHaveNoCr(s[1..]);
      }
    }
  }

  lemma {:induction false} DataHasNoCr(ls: seq<string>)
    requires forall l :: l in ls ==> '\r' !in l
    ensures '\r' !in JoinLines(DataLines(ls))
  {
    if ls != [] {
      assert ls[0] in ls && forall l :: l in ls[1..] ==> l in ls;
      DataHasNoCr(ls[1..]);
      assert DataLines(ls)[1..] == DataLines(ls[1..]) && '\r' !in "data: ";
    }
  }

  lemma {:induction false} EscapeHasNoCr(s: string)
    ensures '\r' !in Escape(s)
  {
    if s != "" {
      EscapeHasNoCr(s[1..]);
      EscapedCharHasNoCr(s[0]);
    }
  }

  lemma {:induction false} EscapedCharHasNoCr(c: char)
    ensures '\r' !in EscapeChar(c)
  {
  }

  lemma {:induction false} PayloadHasNoCr(p: int, c: int, reason: string)
    ensures '\r' !in UsagePayload(p, c, reason)
  {
    EscapeHasNoCr(reason);
    DecimalDigits(if p < 0 then -p else p);
    DecimalDigits(if c < 0 then -c else c);
    assert '\r' !in ToString(p) && '\r' !in ToString(c);
    hide Escape, ToString;
    NamesHaveNoCr();
  }

  lemma {:induction false} NamesHaveNoCr()
    ensures '\r' !in "{\"prompt_tokens\":" && '\r' !in ",\"completion_tokens\":" && '\r' !in ",\"finish_reason\":\""
  {
  }

  lemma {:induction false} NormaliseAppends(a: string, z: string)
    requires a == "" || z == "" || a[|a| - 1] != '\r' || z[0] != '\n'
    ensures Normalise(a + z) == Normalise(a) + Normalise(z)
    decreases |a|
  {
    if a == "" {
      assert a + z == z;
    } else {
      var n := NormaliseHead(a, z);
      NormaliseAppends(a[n..], z);
      hide Normalise;
      Associate(if IsBreak(a[0]) then "\n" else [a[0]], Normalise(a[n..]), Normalise(z));
    }
  }

  predicate IsBreak(c: char) { c == '\r' || c == '\n' }

  // How many characters the first one of a text takes up, whatever follows.
  lemma {:induction false} NormaliseHead(a: string, z: string) returns (n: nat)
    requires a != "" && (z == "" || a[|a| - 1] != '\r' || z[0] != '\n')
    ensures 1 <= n <= |a|
    ensures Normalise(a) == (if IsBreak(a[0]) then "\n" else [a[0]]) + Normalise(a[n..])
    ensures Normalise(a + z) == (if IsBreak(a[0]) then "\n" else [a[0]]) + Normalise(a[n..] + z)
  {
    var s := a + z;
    n := if a[0] == '\r' && |a| > 1 && a[1] == '\n' then 2 else 1;
    assert s[n..] == a[n..] + z && s[0] == a[0];
    assert |a| > 1 ==> s[1] == a[1];
    assert |a| == 1 && z != "" ==> s[1] == z[0];
  }

  lemma {:induction false} NothingToNormalise(a: string)
    requires '\r' !in a
    ensures Normalise(a) == a
  {
    if a != "" {
      NothingToNormalise(a[1..]);
      assert a == [a[0]] + a[1..];
    }
  }

  // What normalising does: text without CR stays as it is, a CRLF becomes one LF, and so does a CR of its own.
  lemma {:induction false} NormaliseBreaks(a: string, b: string)
    ensures '\r' !in a ==> Normalise(a) == a
    ensures Normalise(a + ("\r\n" + b)) == Normalise(a) + ("\n" + Normalise(b))
    ensures !("\n" <= b) ==> Normalise(a + ("\r" + b)) == Normalise(a) + ("\n" + Normalise(b))
  {
    if '\r' !in a {
      NothingToNormalise(a);
    }
    var x, y := "\r\n" + b, "\r" + b;
    NormaliseAppends(a, x);
    NormaliseAppends(a, y);
    assert x[2..] == b && y[1..] == b;
    assert Normalise(x) == "\n" + Normalise(b);
  }

  // ---------------------------------------------------------------- other lines of a frame

  lemma {:induction false} DataAppends(a: seq<string>, b: seq<string>)
    ensures DataOf(a + b) == DataOf(a) + DataOf(b)
    ensures EventOf(a + b) == if EventOf(a).Some? then EventOf(a) else EventOf(b)
  {
    if a == [] {
      assert a + b == b;
    } else {
      assert (a + b)[1..] == a[1..] + b;
      DataAppends(a[1..], b);
    }
  }

  // A line that is neither data nor event, a comment or an id say, changes nothing, wherever it stands in a frame.
  lemma {:induction false} OtherLinesAreIgnored(before: seq<string>, line: string, after: seq<string>)
    requires before + after != [] && forall l :: l in before || l in after || l == line ==> NoNewline(l)
    requires !("data: " <= line) && !("event: " <= line)
    ensures Interpret(JoinLines(before + [line] + after)) == Interpret(JoinLines(before + after))
  {
    SplitJoined(before + [line] + after);
    SplitJoined(before + after);
    DataAppends(before, after);
    DataAppends(before, [line]);
    DataAppends(before + [line], after);
    assert [line][1..] == [];
    assert DataOf(before) + DataOf([line]) == DataOf(before);
  }

  // The first event line names the event; data lines count in their order, and without one the frame says nothing.
  lemma {:induction false} FirstEventWins(before: seq<string>, event: string, after: seq<string>)
    requires forall l :: l in before || l in after ==> NoNewline(l)
    requires NoNewline(event) && forall l :: l in before ==> !("event: " <= l)
    ensures var r := Interpret(JoinLines(before + ["event: " + event] + after));
            if DataOf(before + after) == [] then r == None
            else r == Some(SseFrame(Some(event), JoinLines(DataOf(before + after))))
  {
    var line := "event: " + event;
    assert NoNewline(line) && line[7..] == event && line[0] == 'e' && "data: "[0] == 'd';
    SplitJoined(before + [line] + after);
    DataAppends(before, after);
    DataAppends(before, [line]);
    DataAppends(before + [line], after);
    NoEventThere(before);
    assert [line][1..] == [] && EventOf([line]) == Some(event);
    assert DataOf(before) + DataOf([line]) == DataOf(before);
  }

  lemma {:induction false} NoEventThere(lines: seq<string>)
    requires forall l :: l in lines ==> !("event: " <= l)
    ensures EventOf(lines) == None
  {
    if lines != [] {
      assert lines[0] in lines && forall l :: l in lines[1..] ==> l in lines;
      NoEventThere(lines[1..]);
    }
  }

  // ---------------------------------------------------------------- payloads

  // The payload of an error frame is an object whose "error" member is the message.
  lemma {:induction false} ErrorReadsBack(message: string)
    ensures Said(Failure(message)).event == Some("error")
    ensures StringOf(Said(Failure(message)).data, "error") == Some(message)
  {
    var m := Members("", "error", "", "", Str(message), "", NoMembers);
    ErrorIsPrint(message, m);
    hide Document, ErrorPayload;
    StringRoundTrip("", "", m, "", "error");
  }

  lemma {:induction false} ErrorIsPrint(message: string, m: Members)
    requires m == Members("", "error", "", "", Str(message), "", NoMembers)
    ensures ErrorPayload(message) == Document("", "", m, "") && Plain("error") && ProperDocument("", "", m, "")
  {
    ProperOne(message, m);
    hide ProperDocument;
    OneMember("error", Str(message), NoMembers, "}");
    StringPrints(message, AfterValue(m, "}"));
    NothingBehind("error", Str(message), "}");
    ObjectPrints(m);
    ErrorName();
    var k, text := Name("error"), Escape(message) + ("\"" + "}");
    hide Document, PrintMembers, AfterValue, Escape;
    Associate(k, "\"", text);
    Associate("{", k + "\"", text);
    Associate("{" + (k + "\""), Escape(message), "\"" + "}");
  }

  lemma {:induction false} ProperOne(message: string, m: Members)
    requires m == Members("", "error", "", "", Str(message), "", NoMembers)
    ensures ProperDocument("", "", m, "") && Plain("error")
  {
    assert Proper(Str(message)) && ProperMembers(NoMembers);
    assert ProperMembers(m);
  }

  lemma {:induction false} ErrorName()
    ensures "{" + (Name("error") + "\"") == "{\"error\":\"" && "\"" + "}" == "\"}"
  {
  }

  // What a usage report says reads back member by member; counts must fit the reader's 32 bits.
  lemma {:induction false} UsageReadsBack(p: int, c: int, reason: string)
    ensures var s := Said(Usage(p, c, reason));
            && s.event == Some("usage")
            && IntOf(s.data, "prompt_tokens") == (if FitsInt32(p) then Some(p) else None)
            && IntOf(s.data, "completion_tokens") == (if FitsInt32(c) then Some(c) else None)
            && StringOf(s.data, "finish_reason") == Some(reason)
  {
    var third := Members("", "finish_reason", "", "", Str(reason), "", NoMembers);
    var second := Members("", "completion_tokens", "", "", Int(c), "", third);
    var m := Members("", "prompt_tokens", "", "", Int(p), "", second);
    UsageIsPrint(p, c, reason, third, second, m);
    UsageMembers(third, second, m);
    hide Document, UsagePayload, FirstMember;
    IntRoundTrip("", "", m, "", "prompt_tokens");
    IntRoundTrip("", "", m, "", "completion_tokens");
    StringRoundTrip("", "", m, "", "finish_reason");
  }

  lemma {:induction false} UsageMembers(third: Members, second: Members, m: Members)
    requires third.Members? && third.key == "finish_reason"
    requires second.Members? && second.key == "completion_tokens" && second.rest == third
    requires m.Members? && m.key == "prompt_tokens" && m.rest == second
    ensures FirstMember(m, "prompt_tokens") == Some(m) && FirstMember(m, "completion_tokens") == Some(second)
    ensures FirstMember(m, "finish_reason") == Some(third)
  {
    assert "prompt_tokens"[0] == 'p' && "completion_tokens"[0] == 'c' && "finish_reason"[0] == 'f';
    assert FirstMember(second, "finish_reason") == FirstMember(third, "finish_reason");
  }

  lemma {:induction false} UsageIsPrint(p: int, c: int, reason: string, third: Members, second: Members, m: Members)
    requires third == Members("", "finish_reason", "", "", Str(reason), "", NoMembers)
    requires second == Members("", "completion_tokens", "", "", Int(c), "", third)
    requires m == Members("", "prompt_tokens", "", "", Int(p), "", second)
    ensures UsagePayload(p, c, reason) == Document("", "", m, "") && ProperDocument("", "", m, "")
    ensures Plain("prompt_tokens") && Plain("completion_tokens") && Plain("finish_reason")
  {
    PlainNames();
    ThreeMembers("prompt_tokens", p, "completion_tokens", c, "finish_reason", reason, third, second, m);
    hide Plain, Document, ProperDocument, Escape, ToString;
    FirstName();
    NextName();
    LastName();
    Regroup("{", Name("prompt_tokens"), ToString(p), ",", Name("completion_tokens"), ToString(c),
        Name("finish_reason"), "\"", Escape(reason), "\"" + "}");
  }

  // A member's name as it stands on the wire.
  function Name(key: string): string { "\"" + key + "\":" }

  // An object of two counts and a text.
  lemma {:induction false} ThreeMembers(k1: string, p: int, k2: string, c: int, k3: string, s: string, third: Members,
      second: Members, m: Members)
    requires Plain(k1) && Plain(k2) && Plain(k3)
    requires third == Members("", k3, "", "", Str(s), "", NoMembers)
    requires second == Members("", k2, "", "", Int(c), "", third) && m == Members("", k1, "", "", Int(p), "", second)
    ensures ProperDocument("", "", m, "")
    ensures Document("", "", m, "")
         == "{" + (Name(k1) + (ToString(p) + ("," + (Name(k2) + (ToString(c) + ("," + (Name(k3)
                + ("\"" + (Escape(s) + ("\"" + "}"))))))))))
  {
    ProperThree(third, second, m);
    ObjectPrints(m);
    OneMember(k1, Int(p), second, "}");
    OneMember(k2, Int(c), third, "}");
    OneMember(k3, Str(s), NoMembers, "}");
    StringPrints(s, AfterValue(third, "}"));
    NothingBehind(k3, Str(s), "}");
    MoreBehind(k1, Int(p), second, "}");
    MoreBehind(k2, Int(c), third, "}");
    CountPrints(p, AfterValue(m, "}"));
    CountPrints(c, AfterValue(second, "}"));
    hide *;
  }

  lemma {:induction false} CountPrints(n: int, rest: string)
    ensures Print(Int(n), rest) == ToString(n) + rest
  {
    hide Decimal;
    assert Atom(Int(n)) == ToString(n);
    hide ToString, Atom;
  }

  lemma {:induction false} ProperThree(third: Members, second: Members, m: Members)
    requires forall x :: x in [third, second, m] ==>
               x.Members? && x.pre == x.mid == x.gap == x.post == "" && (x.value.Int? || x.value.Str?)
    requires m.rest == second && second.rest == third && third.rest == NoMembers
    ensures ProperDocument("", "", m, "")
  {
    assert m in [third, second, m] && second in [third, second, m] && third in [third, second, m];
    assert ProperMembers(NoMembers) && Proper(third.value) && Proper(second.value) && Proper(m.value);
    assert ProperMembers(third);
    assert ProperMembers(second);
  }

  lemma {:induction false} PlainNames()
    ensures Plain("prompt_tokens") && Plain("completion_tokens") && Plain("finish_reason")
  {
  }

  lemma {:induction false} FirstName()
    ensures "{" + Name("prompt_tokens") == "{\"prompt_tokens\":"
  {
  }

  lemma {:induction false} NextName()
    ensures "," + Name("completion_tokens") == ",\"completion_tokens\":"
  {
  }

  lemma {:induction false} LastName()
    ensures "," + Name("finish_reason") + "\"" == ",\"finish_reason\":\""
    ensures "\"" + "}" == "\"}"
  {
  }

  lemma {:induction false} Regroup(o: string, k1: string, p: string, comma: string, k2: string, c: string, k3: string,
      quote: string, reason: string, end: string)
    ensures o + (k1 + (p + (comma + (k2 + (c + (comma + (k3 + (quote + (reason + end)))))))))
         == (o + k1) + p + (comma + k2) + c + (comma + k3 + quote) + reason + end
  {
    var z := reason + end;
    var y := c + (comma + (k3 + (quote + z)));
    Associate(comma, k3, quote + z);
    Associate(comma + k3, quote, z);
    Associate(comma, k2, y);
    Associate(o, k1, p + (comma + (k2 + y)));
    var b, d := comma + k2, comma + k3 + quote;
    Associate(o + k1, p, b + y);
    Associate(o + k1 + p, b, y);
    Associate(o + k1 + p + b, c, d + z);
    Associate(o + k1 + p + b + c, d, z);
    Associate(o + k1 + p + b + c + d, reason, end);
  }

  lemma {:induction false} ObjectPrints(m: Members)
    ensures Document("", "", m, "") == "{" + PrintMembers(m, "}")
  {
    var inner := PrintMembers(m, "}");
    assert "}" + "" == "}" && "" + inner == inner;
    var all := "{" + inner;
    assert "" + all == all;
  }

  // How a member prints that has no space around its tokens.
  lemma {:induction false} OneMember(key: string, value: Json, more: Members, rest: string)
    requires Plain(key)
    ensures var m := Members("", key, "", "", value, "", more);
            PrintMembers(m, rest) == Name(key) + Print(value, AfterValue(m, rest))
  {
    var m := Members("", key, "", "", value, "", more);
    PlainEscape(key);
    var after := Print(value, AfterValue(m, rest));
    assert "" + after == after;
    var name := ":" + after;
    assert "" + name == name && AfterName(m, rest) == name;
    var all := "\"" + (key + ("\"" + name));
    assert "" + all == all && PrintMembers(m, rest) == all;
    Associate("\"", ":", after);
    assert "\"" + ":" == "\":";
    Associate(key, "\":", after);
    Associate("\"", key + "\":", after);
    Associate("\"", key, "\":");
  }

  lemma {:induction false} StringPrints(s: string, rest: string)
    ensures Print(Str(s), rest) == "\"" + (Escape(s) + ("\"" + rest))
  {
  }

  lemma {:induction false} NothingBehind(key: string, value: Json, rest: string)
    ensures AfterValue(Members("", key, "", "", value, "", NoMembers), rest) == rest
  {
    assert "" + rest == rest;
  }

  lemma {:induction false} MoreBehind(key: string, value: Json, more: Members, rest: string)
    requires more.Members?
    ensures AfterValue(Members("", key, "", "", value, "", more), rest) == "," + PrintMembers(more, rest)
  {
    var behind := "," + PrintMembers(more, rest);
    assert "" + behind == behind;
  }

  // ---------------------------------------------------------------- whole streams

  function FrameTexts(fs: seq<Frame>): seq<string> {
    if fs == [] then [] else [FrameText(fs[0])] + FrameTexts(fs[1..])
  }

  lemma {:induction false} PiecesOfStream(fs: seq<Frame>)
    ensures Pieces(StreamText(fs)) == FrameTexts(fs) + [""]
  {
    if fs != [] {
      FrameIsSolid(fs[0]);
      SplitOffFrame(FrameText(fs[0]), StreamText(fs[1..]));
      PiecesOfStream(fs[1..]);
    }
  }

  lemma {:induction false} TakeFrameTexts(p: Progress, fs: seq<Frame>)
    requires !p.done
    ensures TakeAll(p, FrameTexts(fs)).yielded == p.yielded + ReaderView(fs, p.sawTerminal).0
    ensures TakeAll(p, FrameTexts(fs)).sawTerminal == ReaderView(fs, p.sawTerminal).1
    decreases |fs|
  {
    if fs == [] {
      assert p.yielded + [] == p.yielded;
    } else {
      var ts := FrameTexts(fs);
      assert ts[0] == FrameText(fs[0]) && ts[1..] == FrameTexts(fs[1..]);
      TakeFrame(p, fs[0]);
      var s, q := Said(fs[0]), Take(p, ts[0]);
      if s.data == "[DONE]" {
        TakeAllDone(q, ts[1..]);
        assert p.yielded + [] == p.yielded;
      } else {
        TakeFrameTexts(q, fs[1..]);
        ConcatAssociates(p.yielded, [s], ReaderView(fs[1..], q.sawTerminal).0);
      }
    }
  }

  lemma {:induction false} TakeFrame(p: Progress, f: Frame)
    requires !p.done
    ensures Take(p, FrameText(f)) ==
            if Said(f).data == "[DONE]" then Progress(p.yielded, true, true)
            else Progress(p.yielded + [Said(f)], false, p.sawTerminal || Said(f).event == Some("error"))
  {
    InterpretFrame(f);
  }

  // A complete stream reads back as what its frames say, up to the first that says [DONE].
  lemma {:induction false} StreamReadsBack(fs: seq<Frame>)
    ensures Outcome(StreamText(fs)) == ReaderView(fs, false)
  {
    PiecesOfStream(fs);
    var ts := FrameTexts(fs);
    assert (ts + [""])[..|ts|] == ts;
    TakeFrameTexts(START, fs);
    assert [] + ReaderView(fs, false).0 == ReaderView(fs, false).0;
  }

  // ---------------------------------------------------------------- the round trip

  function Contents(texts: seq<string>): seq<Frame> {
    if texts == [] then [] else [Content(texts[0])] + Contents(texts[1..])
  }

  function Normalised(texts: seq<string>): seq<SseFrame> {
    if texts == [] then [] else [SseFrame(None, Normalise(texts[0]))] + Normalised(texts[1..])
  }

  ghost predicate SaysDone(texts: seq<string>) {
    exists i :: 0 <= i < |texts| && Normalise(texts[i]) == "[DONE]"
  }

  lemma {:induction false} ContentsThenDone(texts: seq<string>, saw: bool)
    ensures var v := ReaderView(Contents(texts) + [Done], saw);
            && v.1
            && (v.0 == Normalised(texts) <==> !SaysDone(texts))
            && v.0 <= Normalised(texts)
  {
    var fs := Contents(texts) + [Done];
    if texts == [] {
      assert fs == [Done];
    } else {
      assert fs[0] == Content(texts[0]) && fs[1..] == Contents(texts[1..]) + [Done];
      ContentsThenDone(texts[1..], saw);
      assert SaysDone(texts) <==> Normalise(texts[0]) == "[DONE]" || SaysDone(texts[1..]) by {
        assert forall i :: 0 <= i < |texts[1..]| ==> texts[1..][i] == texts[i + 1];
        if SaysDone(texts) && Normalise(texts[0]) != "[DONE]" {
          var i :| 0 <= i < |texts| && Normalise(texts[i]) == "[DONE]";
          assert texts[1..][i - 1] == texts[i];
        }
      }
    }
  }

  // writeChunk for each text, then writeDone, cut into reads in any way: the reader finishes, and it yields
  // every text with its line breaks normalised if and only if no text normalises to the sentinel itself.
  lemma {:induction false} RoundTrip(texts: seq<string>, chunks: seq<string>)
    requires Concat(chunks) == StreamText(Contents(texts) + [Done])
    ensures var (yielded, finished) := Outcome(Concat(chunks));
            && finished
            && yielded <= Normalised(texts)
            && (yielded == Normalised(texts) <==> !SaysDone(texts))
  {
    StreamReadsBack(Contents(texts) + [Done]);
    ContentsThenDone(texts, false);
  }

  // ---------------------------------------------------------------- broken streams

  predicate IsTerminal(f: Frame) {
    f.Done? || f.Failure?
  }

  function SaidAll(fs: seq<Frame>): seq<SseFrame> {
    if fs == [] then [] else [Said(fs[0])] + SaidAll(fs[1..])
  }

  // Content that does not end the stream.
  ghost predicate Flowing(fs: seq<Frame>) {
    forall i :: 0 <= i < |fs| ==> !IsTerminal(fs[i]) && Said(fs[i]).data != "[DONE]"
  }

  ghost predicate NoTerminal(fs: seq<Frame>) {
    forall i :: 0 <= i < |fs| ==> !IsTerminal(fs[i])
  }

  // The reader takes the stream as ended properly once it has seen this frame.
  predicate EndsStream(f: Frame) {
    Said(f).data == "[DONE]" || Said(f).event == Some("error")
  }

  lemma {:induction false} ViewIsFinished(fs: seq<Frame>, saw: bool)
    ensures ReaderView(fs, saw).1 <==> saw || exists i :: 0 <= i < |fs| && EndsStream(fs[i])
  {
    if fs != [] {
      var rest := fs[1..];
      ViewIsFinished(rest, saw || Said(fs[0]).event == Some("error"));
      assert forall i :: 0 <= i < |rest| ==> rest[i] == fs[i + 1];
      if i :| 0 <= i < |fs| && EndsStream(fs[i]) {
        assert i > 0 ==> EndsStream(rest[i - 1]);
      }
    }
  }

  lemma {:induction false} ViewPrefix(fs: seq<Frame>, k: nat, saw: bool)
    requires k <= |fs|
    ensures ReaderView(fs[..k], saw).0 <= ReaderView(fs, saw).0
  {
    if k > 0 {
      assert fs[..k][1..] == fs[1..][..k - 1] && fs[..k][0] == fs[0];
      ViewPrefix(fs[1..], k - 1, saw || Said(fs[0]).event == Some("error"));
    }
  }

  // The sentinel and what follows it are not yielded.
  lemma {:induction false} ViewStopsAt(fs: seq<Frame>, i: nat, saw: bool)
    requires i < |fs| && Said(fs[i]).data == "[DONE]"
    ensures |ReaderView(fs, saw).0| <= i
  {
    if i > 0 && Said(fs[0]).data != "[DONE]" {
      ViewStopsAt(fs[1..], i - 1, saw || Said(fs[0]).event == Some("error"));
    }
  }

  lemma {:induction false} TextsPrefix(fs: seq<Frame>, k: nat)
    requires k <= |fs|
    ensures |FrameTexts(fs)| == |fs| && FrameTexts(fs)[..k] == FrameTexts(fs[..k])
  {
    if fs != [] {
      TextsPrefix(fs[1..], if k > 0 then k - 1 else 0);
      if k > 0 {
        assert fs[..k][1..] == fs[1..][..k - 1] && fs[..k][0] == fs[0];
      }
    }
  }

  lemma {:induction false} SaidAllLength(fs: seq<Frame>)
    ensures |SaidAll(fs)| == |fs|
  {
    if fs != [] {
      SaidAllLength(fs[1..]);
    }
  }

  // The complete frames of a stream that broke off are the first few of those sent, and never the last one.
  lemma {:induction false} BrokenPieces(all: seq<Frame>, got: string)
    requires got < StreamText(all)
    ensures |Pieces(got)| <= |all|
    ensures Pieces(got)[..|Pieces(got)| - 1] == FrameTexts(all[..|Pieces(got)| - 1])
  {
    var rest := StreamText(all)[|got|..];
    assert StreamText(all) == got + rest;
    PiecesAppend(got, rest);
    PiecesOfStream(all);
    TextsPrefix(all, |all|);
    var ps := Pieces(got);
    var k := |ps| - 1;
    var late := Pieces(ps[k] + rest);
    assert ps[..k] + late == FrameTexts(all) + [""];
    LastPiece(ps[..k], late, FrameTexts(all));
    OnePiece(ps[k] + rest);
    assert k < |all|;
    TextsPrefix(all, k);
    assert (ps[..k] + late)[..k] == ps[..k];
    assert (FrameTexts(all) + [""])[..k] == FrameTexts(all)[..k];
  }

  lemma {:induction false} LastPiece(early: seq<string>, late: seq<string>, ts: seq<string>)
    requires late != [] && early + late == ts + [""]
    ensures |early| <= |ts| && (|early| == |ts| ==> late == [""])
  {
    assert |early + late| == |ts + [""]|;
    assert late[|late| - 1] == (early + late)[|ts|];
  }

  // The complete frames received of a stream that broke off.
  function Received(all: seq<Frame>, got: string): seq<Frame> {
    all[..if |Pieces(got)| - 1 <= |all| then |Pieces(got)| - 1 else |all|]
  }

  // A stream of any frames that breaks off anywhere: the reader yields what the complete frames say, a prefix of what
  // the whole stream says, and throws if and only if none of them ends the stream.
  lemma {:induction false} TruncationIsDetected(all: seq<Frame>, got: string)
    requires got < StreamText(all)
    ensures |Received(all, got)| < |all|
    ensures Outcome(got) == ReaderView(Received(all, got), false)
    ensures Outcome(got).0 <= ReaderView(all, false).0
    ensures !Outcome(got).1 <==> forall i :: 0 <= i < |Received(all, got)| ==> !EndsStream(all[i])
  {
    hide Outcome, Pieces, StreamText, ReaderView;
    BrokenOutcome(all, got);
    ViewIsFinished(Received(all, got), false);
    ViewPrefix(all, |Received(all, got)|, false);
  }

  lemma {:induction false} BrokenOutcome(all: seq<Frame>, got: string)
    requires got < StreamText(all)
    ensures |Received(all, got)| < |all| && Outcome(got) == ReaderView(Received(all, got), false)
  {
    hide Pieces, StreamText, ReaderView, TakeAll;
    BrokenPieces(all, got);
    var view := ReaderView(Received(all, got), false);
    TakeFrameTexts(START, Received(all, got));
    assert [] + view.0 == view.0;
  }

  lemma {:induction false} FailureIsNotDone(message: string)
    ensures ErrorPayload(message) != "[DONE]"
  {
  }

  lemma {:induction false} FlowingThenTerminal(fs: seq<Frame>, t: Frame, saw: bool)
    requires Flowing(fs) && IsTerminal(t)
    ensures ReaderView(fs + [t], saw) == (SaidAll(fs) + (if t.Done? then [] else [Said(t)]), true)
  {
    if fs == [] {
      assert fs + [t] == [t] && [t][1..] == [];
      if t.Failure? {
        FailureIsNotDone(t.message);
        assert ReaderView([], true) == ([], true);
        assert [Said(t)] + [] == [] + [Said(t)];
      }
    } else {
      assert !IsTerminal(fs[0]) && Said(fs[0]).data != "[DONE]";
      assert (fs + [t])[1..] == fs[1..] + [t];
      FlowingThenTerminal(fs[1..], t, saw || Said(fs[0]).event == Some("error"));
      ConcatAssociates([Said(fs[0])], SaidAll(fs[1..]), if t.Done? then [] else [Said(t)]);
    }
  }

  lemma {:induction false} StreamTextSplit(fs: seq<Frame>, k: nat)
    requires k <= |fs|
    ensures StreamText(fs) == StreamText(fs[..k]) + StreamText(fs[k..])
  {
    if k == 0 {
      assert fs[0..] == fs;
    } else {
      StreamTextSplit(fs[1..], k - 1);
      assert fs[..k][1..] == fs[1..][..k - 1] && fs[1..][k - 1..] == fs[k..];
      var b, c := StreamText(fs[1..][..k - 1]), StreamText(fs[k..]);
      ConcatAssociates("\n\n", b, c);
      ConcatAssociates(FrameText(fs[0]), "\n\n" + b, c);
    }
  }

  // A piece that reads as the sentinel hides a connection that is lost behind it.
  lemma {:induction false} SentinelHidesBreak(all: seq<Frame>, i: nat) returns (got: string)
    requires i + 1 < |all| && Said(all[i]).data == "[DONE]"
    ensures got < StreamText(all) && Outcome(got).1
  {
    got := StreamText(all[..i + 1]);
    StreamTextSplit(all, i + 1);
    assert StreamText(all[i + 1..]) != "";
    StreamReadsBack(all[..i + 1]);
    ViewIsFinished(all[..i + 1], false);
    assert EndsStream(all[..i + 1][i]);
  }

  lemma {:induction false} OpenFramesDoNotEnd(fs: seq<Frame>)
    requires Flowing(fs)
    ensures forall i :: 0 <= i < |fs| ==> !EndsStream(fs[i])
  {
    forall i | 0 <= i < |fs| ensures !EndsStream(fs[i]) {
      assert !IsTerminal(fs[i]);
    }
  }

  // A finished stream reads as finished. It reads as all its frames if and only if no content reads as the sentinel,
  // and under the same condition every break, wherever it comes, makes the reader throw.
  lemma {:induction false} StreamOutcome(fs: seq<Frame>, t: Frame)
    requires NoTerminal(fs) && IsTerminal(t)
    ensures Outcome(StreamText(fs + [t])).1
    ensures Outcome(StreamText(fs + [t])).0 == SaidAll(fs) + (if t.Done? then [] else [Said(t)]) <==> Flowing(fs)
    ensures (forall got :: got < StreamText(fs + [t]) ==> !Outcome(got).1) <==> Flowing(fs)
  {
    var all := fs + [t];
    StreamReadsBack(all);
    ViewIsFinished(all, false);
    assert EndsStream(all[|fs|]);
    if Flowing(fs) {
      FlowingThenTerminal(fs, t, false);
      forall got | got < StreamText(all) ensures !Outcome(got).1 {
        TruncationIsDetected(all, got);
        OpenFramesDoNotEnd(fs);
      }
    } else {
      var i :| 0 <= i < |fs| && Said(fs[i]).data == "[DONE]";
      SaidAllLength(fs);
      ViewStopsAt(all, i, false);
      var got := SentinelHidesBreak(all, i);
    }
  }

  lemma {:induction false} OnePiece(s: string)
    ensures |Pieces(s)| == 1 ==> Pieces(s) == [s]
  {
  }
}
