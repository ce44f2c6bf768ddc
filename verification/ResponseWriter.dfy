// core/src/http_server.cpp: the response writer that a streaming handler is given, and the dispatch around it.
// Bytes are characters here; a socket may take part of what it is offered, and once a send failed all later ones do.
module ResponseWriter {
  import opened Options
  import opened JsonText
  import opened SseWire
  import opened SseRoundTrip
  import opened HttpReader

  class Socket {
    var sent: string
    var gone: bool

    constructor ()
      ensures sent == "" && !gone
    {
      sent, gone := "", false;
    }

    // How many characters the peer took; nothing positive when it is gone.
    method SendBytes(data: string) returns (n: int)
      requires data != ""
      modifies this
      ensures n <= |data| && (n <= 0 <==> gone)
      ensures old(gone) ==> gone
      ensures sent == if n > 0 then old(sent) + data[..n] else old(sent)
    {
      if gone {
        return 0;
      }
      if * {
        gone := true;
        return -1;
      }
      n :| 1 <= n <= |data|;
      sent := sent + data[..n];
    }

    // The send loop that every write repeats.
    method SendAll(data: string) returns (ok: bool)
      requires data != ""
      modifies this
      ensures ok <==> !gone
      ensures old(gone) ==> gone && sent == old(sent)
      ensures ok ==> sent == old(sent) + data
      ensures exists k :: 0 <= k <= |data| && sent == old(sent) + data[..k]
    {
      var total := 0;
      assert sent == sent + data[..0];
      while total < |data|
        invariant 0 <= total <= |data|
        invariant old(gone) ==> gone && total == 0
        invariant sent == old(sent) + data[..total]
        invariant total == 0 || !gone
      {
        var n := SendBytes(data[total..]);
        if n <= 0 {
          return false;
        }
        assert data[..total] + data[total..][..n] == data[..total + n];
        total := total + n;
      }
      assert data[..|data|] == data;
      return true;
    }
  }

  // ---------------------------------------------------------------- what a response may be

  // What the writer has committed the connection to.
  datatype Wire = Nothing | Json(status: int, body: string) | Stream(frames: seq<Frame>)

  datatype Call =
    | WriteJson(status: int, body: string)
    | WriteChunk(text: string)
    | WriteUsage(promptTokens: int, completionTokens: int, reason: string)
    | WriteDone
    | WriteError(message: string)

  const CRLF: string := "\r\n"

  const SSE_HEADERS: string :=
    "HTTP/1.1 200 OK" + CRLF + "Content-Type: text/event-stream" + CRLF + "Cache-Control: no-cache" + CRLF
    + "Connection: close" + CRLF + CRLF

  function StatusText(status: int): string {
    if status == 200 then "OK"
    else if status == 204 then "No Content"
    else if status == 404 then "Not Found"
    else if status == 400 then "Bad Request"
    else if status == 401 then "Unauthorized"
    else "Error"
  }

  function JsonResponse(status: int, body: string): string {
    "HTTP/1.1 " + ToString(status) + " " + StatusText(status) + CRLF + "Content-Type: application/json" + CRLF
    + ("Content-Length: " + ToString(|body|)) + CRLF + "Connection: close" + CRLF + CRLF + body
  }

  function Render(w: Wire): string {
    match w
    case Nothing => ""
    case Json(status, body) => JsonResponse(status, body)
    case Stream(frames) => SSE_HEADERS + StreamText(frames)
  }

  predicate Ended(frames: seq<Frame>) {
    frames != [] && IsTerminal(frames[|frames| - 1])
  }

  // A terminal frame is the last one.
  predicate WellFormed(w: Wire) {
    w.Stream? ==> forall i :: 0 <= i < |w.frames| - 1 ==> !IsTerminal(w.frames[i])
  }

  // Exactly one JSON response, or a stream with exactly one terminal frame, which is its last.
  predicate Complete(w: Wire) {
    WellFormed(w) && (w.Json? || (w.Stream? && Ended(w.frames)))
  }

  function AddFrame(w: Wire, f: Frame): Wire {
    match w
    case Nothing => Stream([f])
    case Json(_, _) => w
    case Stream(frames) => if Ended(frames) then w else Stream(frames + [f])
  }

  function Apply(w: Wire, c: Call): Wire {
    match c
    case WriteJson(status, body) => if w.Nothing? then Json(status, body) else w
    case WriteChunk(text) => AddFrame(w, Content(text))
    case WriteUsage(p, n, reason) => AddFrame(w, Usage(p, n, reason))
    case WriteDone => AddFrame(w, Done)
    case WriteError(message) => if w.Nothing? then Json(500, ErrorPayload(message)) else AddFrame(w, Failure(message))
  }

  function ApplyAll(w: Wire, calls: seq<Call>): Wire
    decreases |calls|
  {
    if calls == [] then w else ApplyAll(Apply(w, calls[0]), calls[1..])
  }

  lemma {:induction false} StreamTextSnoc(fs: seq<Frame>, f: Frame)
    ensures StreamText(fs + [f]) == StreamText(fs) + (FrameText(f) + "\n\n")
  {
    hide FrameText;
    if fs == [] {
      assert fs + [f] == [f] && [f][1..] == [];
      assert StreamText([f]) == FrameText(f) + ("\n\n" + "");
    } else {
      assert (fs + [f])[0] == fs[0] && (fs + [f])[1..] == fs[1..] + [f];
      StreamTextSnoc(fs[1..], f);
      var head, body, last := FrameText(fs[0]), StreamText(fs[1..]), FrameText(f) + "\n\n";
      ConcatAssociates("\n\n", body, last);
      ConcatAssociates(head, "\n\n" + body, last);
    }
  }

  lemma {:induction false} AddFrameExtends(w: Wire, f: Frame)
    requires WellFormed(w)
    ensures WellFormed(AddFrame(w, f)) && Render(w) <= Render(AddFrame(w, f))
    ensures Complete(w) ==> AddFrame(w, f) == w
  {
    hide SSE_HEADERS, JsonResponse, StreamText, FrameText, IsTerminal;
    if w.Nothing? {
      assert Render(w) == "";
    } else if w.Stream? && !Ended(w.frames) {
      FrameGrowth(w, f);
      hide Render;
      FrameStaysWellFormed(w.frames, f);
    }
  }

  lemma {:induction false} FrameStaysWellFormed(fs: seq<Frame>, f: Frame)
    requires WellFormed(Stream(fs)) && !Ended(fs)
    ensures WellFormed(Stream(fs + [f]))
  {
    hide IsTerminal;
    forall i | 0 <= i < |fs| ensures !IsTerminal((fs + [f])[i]) {
      assert (fs + [f])[i] == fs[i];
    }
  }

  // A call only ever adds to the response, and never touches a finished one.
  lemma {:induction false} ApplyExtends(w: Wire, c: Call)
    requires WellFormed(w)
    ensures WellFormed(Apply(w, c)) && Render(w) <= Render(Apply(w, c))
    ensures Complete(w) ==> Apply(w, c) == w
  {
    hide SSE_HEADERS, JsonResponse, StreamText, IsTerminal, AddFrame;
    match c
    case WriteJson(_, _) =>
    case WriteChunk(text) => AddFrameExtends(w, Content(text));
    case WriteUsage(p, n, reason) => AddFrameExtends(w, Usage(p, n, reason));
    case WriteDone => AddFrameExtends(w, Done);
    case WriteError(message) => AddFrameExtends(w, Failure(message));
  }

  lemma {:induction false} ApplyAllExtends(w: Wire, calls: seq<Call>)
    requires WellFormed(w)
    ensures WellFormed(ApplyAll(w, calls)) && Render(w) <= Render(ApplyAll(w, calls))
    ensures Complete(w) ==> ApplyAll(w, calls) == w
    decreases |calls|
  {
    hide Render, WellFormed, Complete, Apply;
    if calls != [] {
      ApplyExtends(w, calls[0]);
      ApplyAllExtends(Apply(w, calls[0]), calls[1..]);
    }
  }

  // ---------------------------------------------------------------- building a content frame

  function DataText(ls: seq<string>): string {
    if ls == [] then "" else "data: " + ls[0] + "\n" + DataText(ls[1..])
  }

  lemma {:induction false} DataTextJoins(ls: seq<string>)
    requires ls != []
    ensures DataText(ls) == JoinLines(DataLines(ls)) + "\n"
  {
    var ds := DataLines(ls);
    assert ds[1..] == DataLines(ls[1..]) && ds[0] == "data: " + ls[0];
    if |ls| == 1 {
      assert DataText(ls[1..]) == "" && ds == [ds[0]];
    } else {
      DataTextJoins(ls[1..]);
      assert |ds| > 1 by {
        assert ds[1..] != [];
      }
      assert ds[0] + "\n" + (JoinLines(ds[1..]) + "\n") == (ds[0] + ("\n" + JoinLines(ds[1..]))) + "\n";
    }
  }

  // text.find_first_of("\r\n", start)
  method FindBreak(text: string, start: nat) returns (brk: nat)
    requires start <= |text|
    ensures start <= brk <= |text| && (brk < |text| ==> IsBreak(text[brk]))
    ensures forall i :: start <= i < brk ==> !IsBreak(text[i])
  {
    brk := start;
    while brk < |text| && !IsBreak(text[brk])
      invariant start <= brk <= |text|
      invariant forall i :: start <= i < brk ==> !IsBreak(text[i])
    {
      brk := brk + 1;
    }
  }

  lemma {:induction false} UnbrokenLine(s: string)
    requires forall i :: 0 <= i < |s| ==> !IsBreak(s[i])
    ensures Lines(s) == [s]
  {
    if s != "" {
      UnbrokenLine(s[1..]);
      assert [s[0]] + s[1..] == s;
    }
  }

  lemma {:induction false} FirstLine(s: string, k: nat)
    requires k < |s| && IsBreak(s[k]) && forall i :: 0 <= i < k ==> !IsBreak(s[i])
    ensures Lines(s) == [s[..k]] + Lines(s[k + BreakWidth(s, k)..])
  {
    if k > 0 {
      var t := s[1..];
      FirstLine(t, k - 1);
      var w := BreakWidth(s, k);
      assert BreakWidth(t, k - 1) == w && t[k - 1 + w..] == s[k + w..];
      var later := Lines(s[k + w..]);
      assert ([t[..k - 1]] + later)[1..] == later;
      assert [s[0]] + t[..k - 1] == s[..k];
      assert !IsBreak(s[0]);
    }
  }

  method ContentFrame(text: string) returns (frame: string)
    ensures frame == FrameText(Content(text)) + "\n\n"
  {
    hide DataText, Lines, DataLines, JoinLines;
    var out := "";
    var start := 0;
    assert text[0..] == text && out + DataText(Lines(text)) == DataText(Lines(text));
    while true
      invariant 0 <= start <= |text|
      invariant out + DataText(Lines(text[start..])) == DataText(Lines(text))
      decreases |text| - start
    {
      var brk := FindBreak(text, start);
      var line := text[start..brk];
      ghost var was := out;
      out := out + ("data: " + line + "\n");
      if brk == |text| {
        LastLine(text, start, was);
        break;
      }
      var isCrlf := text[brk] == '\r' && brk + 1 < |text| && text[brk + 1] == '\n';
      var next := brk + if isCrlf then 2 else 1;
      NextLineAt(text, start, brk, was);
      start := next;
    }
    DataTextJoins(Lines(text));
    ConcatAssociates(JoinLines(DataLines(Lines(text))), "\n", "\n");
    assert "\n" + "\n" == "\n\n";
    frame := out + "\n";
  }

  lemma {:induction false} LastLine(text: string, start: nat, out: string)
    requires start <= |text| && forall i :: start <= i < |text| ==> !IsBreak(text[i])
    ensures out + DataText(Lines(text[start..])) == out + ("data: " + text[start..|text|] + "\n")
  {
    var rest := text[start..];
    UnbrokenLine(rest);
    assert [rest] + [] == [rest] && rest == text[start..|text|];
    DataTextCons(rest, []);
  }

  function BreakWidth(rest: string, k: nat): nat
    requires k < |rest|
    ensures k + BreakWidth(rest, k) <= |rest|
  {
    if rest[k] == '\r' && k + 1 < |rest| && rest[k + 1] == '\n' then 2 else 1
  }

  lemma {:induction false} NextLine(rest: string, k: nat, out: string)
    requires k < |rest| && IsBreak(rest[k]) && forall i :: 0 <= i < k ==> !IsBreak(rest[i])
    ensures out + DataText(Lines(rest)) == out + ("data: " + rest[..k] + "\n")
        + DataText(Lines(rest[k + BreakWidth(rest, k)..]))
  {
    FirstLine(rest, k);
    var later := Lines(rest[k + BreakWidth(rest, k)..]);
    DataTextCons(rest[..k], later);
    ConcatAssociates(out, "data: " + rest[..k] + "\n", DataText(later));
  }

  // The text of a frame of two lines.
  method TwoLineFrame(event: string, payload: string) returns (frame: string)
    ensures frame == JoinLines([event, "data: " + payload]) + "\n\n"
  {
    ghost var ls := [event, "data: " + payload];
    assert ls[1..] == [ls[1]];
    frame := event + ("\n" + ("data: " + payload)) + "\n\n";
  }

  method UsageFrame(promptTokens: int, completionTokens: int, reason: string) returns (frame: string)
    ensures frame == FrameText(Usage(promptTokens, completionTokens, reason)) + "\n\n"
  {
    var escaped := JsonEscapeString(reason);
    frame := TwoLineFrame("event: usage",
      "{\"prompt_tokens\":" + ToString(promptTokens) + ",\"completion_tokens\":" + ToString(completionTokens)
      + ",\"finish_reason\":\"" + escaped + "\"}");
  }

  method ErrorBody(message: string) returns (body: string)
    ensures body == ErrorPayload(message)
  {
    var escaped := JsonEscapeString(message);
    body := "{\"error\":\"" + escaped + "\"}";
  }

  method ErrorFrame(ghost message: string, body: string) returns (frame: string)
    requires body == ErrorPayload(message)
    ensures frame == FrameText(Failure(message)) + "\n\n"
  {
    frame := TwoLineFrame("event: error", body);
  }

  method DoneFrame() returns (frame: string)
    ensures frame == FrameText(Done) + "\n\n"
  {
    frame := "data: [DONE]\n\n";
  }

  lemma {:induction false} NextLineAt(text: string, start: nat, brk: nat, out: string)
    requires start <= brk < |text| && IsBreak(text[brk]) && forall i :: start <= i < brk ==> !IsBreak(text[i])
    ensures var next := brk + BreakWidth(text, brk);
            out + DataText(Lines(text[start..]))
                == out + ("data: " + text[start..brk] + "\n") + DataText(Lines(text[next..]))
  {
    var rest, k := text[start..], brk - start;
    NextLine(rest, k, out);
    assert BreakWidth(rest, k) == BreakWidth(text, brk);
    assert rest[..k] == text[start..brk] && rest[k + BreakWidth(rest, k)..] == text[brk + BreakWidth(text, brk)..];
  }

  lemma {:induction false} DataTextCons(line: string, ls: seq<string>)
    ensures DataText([line] + ls) == "data: " + line + "\n" + DataText(ls)
  {
  }

  // ---------------------------------------------------------------- the writer

  class Writer {
    const socket: Socket
    var sseHeadersSent: bool
    var jsonResponseSent: bool
    var doneSent: bool
    var errorSent: bool
    // The response that all calls so far asked for.
    ghost var wire: Wire

    // What was sent is a prefix of that response, and all of it while the peer is there.
    ghost predicate OnWire()
      reads this, socket
    {
      WellFormed(wire) && socket.sent <= Render(wire) && (!socket.gone ==> socket.sent == Render(wire))
    }

    ghost predicate HeadAgrees()
      reads this, socket
    {
      && (sseHeadersSent ==> wire.Stream?)
      && (!socket.gone ==> jsonResponseSent == wire.Json? && sseHeadersSent == wire.Stream?)
    }

    ghost predicate EndAgrees()
      reads this, socket
    {
      !socket.gone ==> (doneSent || errorSent) == (wire.Stream? && Ended(wire.frames))
    }

    // While the peer is there the flags tell exactly how far the response has got.
    ghost predicate Valid()
      reads this, socket
    {
      OnWire() && HeadAgrees() && EndAgrees()
    }

    constructor (s: Socket)
      requires s.sent == "" && !s.gone
      ensures socket == s && Valid() && wire == Nothing
    {
      socket := s;
      sseHeadersSent, jsonResponseSent, doneSent, errorSent := false, false, false, false;
      wire := Nothing;
    }

    // A call that sends nothing: the response is finished, or nobody is there to see it.
    ghost method Drop(next: Wire)
      requires OnWire() && HeadAgrees() && WellFormed(next) && Render(wire) <= Render(next)
      requires if socket.gone then wire.Stream? ==> next.Stream? else next == wire
      modifies this`wire
      ensures OnWire() && HeadAgrees() && wire == next
    {
      wire := next;
    }

    // Sends what the response grows by.
    method Offer(data: string, ghost next: Wire) returns (ok: bool)
      requires OnWire() && data != "" && WellFormed(next) && Render(wire) <= Render(next)
      requires !socket.gone ==> Render(next) == Render(wire) + data
      modifies this`wire, socket
      ensures OnWire() && wire == next
      ensures ok <==> !socket.gone
      ensures old(socket.gone) ==> socket.gone
    {
      hide SSE_HEADERS, JsonResponse;
      ghost var before := socket.sent;
      ok := socket.SendAll(data);
      PartOf(before, data, socket.sent);
      wire := next;
    }

    // One frame on a stream that has not ended.
    method SendFrame(f: Frame, text: string) returns (threw: bool)
      requires OnWire() && HeadAgrees() && text == FrameText(f) + "\n\n"
      requires !socket.gone ==> wire.Stream? && !Ended(wire.frames)
      modifies this`wire, socket
      ensures OnWire() && HeadAgrees() && wire == AddFrame(old(wire), f)
      ensures threw <==> socket.gone
      ensures old(socket.gone) ==> socket.gone
    {
      hide SSE_HEADERS, JsonResponse;
      AddFrameExtends(wire, f);
      if !socket.gone {
        FrameGrowth(wire, f);
      }
      var ok := Offer(text, AddFrame(wire, f));
      return !ok;
    }

    method EnsureSseHeadersSent() returns (threw: bool)
      requires OnWire() && HeadAgrees()
      modifies this`wire, this`sseHeadersSent, socket
      ensures OnWire() && HeadAgrees() && wire == WithHeaders(old(wire))
      ensures threw ==> socket.gone
      ensures socket.gone && !old(socket.gone) ==> threw
      ensures old(socket.gone) ==> socket.gone
    {
      hide SSE_HEADERS, JsonResponse;
      StartGrowth(wire);
      if sseHeadersSent || jsonResponseSent {
        Drop(WithHeaders(wire));
        return false;
      }
      var ok := Offer(SSE_HEADERS, WithHeaders(wire));
      if !ok {
        return true;
      }
      sseHeadersSent := true;
      return false;
    }

    // A complete response of its own; a peer that is gone goes unnoticed here.
    method WriteJsonResponse(status: int, body: string)
      requires Valid()
      modifies this, socket
      ensures Valid() && wire == Apply(old(wire), WriteJson(status, body))
      ensures old(socket.gone) ==> socket.gone
    {
      hide SSE_HEADERS, JsonResponse;
      ghost var next := Apply(wire, WriteJson(status, body));
      ApplyExtends(wire, WriteJson(status, body));
      if sseHeadersSent || jsonResponseSent {
        Drop(next);
        return;
      }
      JsonGrowth(status, body);
      var _ := Offer(JsonResponse(status, body), next);
      jsonResponseSent := true;
    }

    // Dropped once there is a JSON response or a terminal frame.
    method SendOrDrop(f: Frame, text: string) returns (threw: bool)
      requires OnWire() && HeadAgrees() && EndAgrees() && text == FrameText(f) + "\n\n"
      requires !socket.gone ==> !wire.Nothing?
      modifies this`wire, socket
      ensures OnWire() && HeadAgrees() && wire == AddFrame(old(wire), f)
      ensures threw ==> socket.gone
      ensures socket.gone && !old(socket.gone) ==> threw
      ensures old(socket.gone) ==> socket.gone
    {
      hide SSE_HEADERS, JsonResponse;
      if jsonResponseSent || doneSent || errorSent {
        AddFrameExtends(wire, f);
        Drop(AddFrame(wire, f));
        return false;
      }
      threw := SendFrame(f, text);
    }

    // Content and usage frames.
    method SendOpenFrame(f: Frame, text: string) returns (threw: bool)
      requires Valid() && text == FrameText(f) + "\n\n" && !IsTerminal(f)
      modifies this, socket
      ensures Valid() && wire == AddFrame(old(wire), f)
      ensures threw ==> socket.gone
      ensures socket.gone && !old(socket.gone) ==> threw
      ensures old(socket.gone) ==> socket.gone
    {
      hide SSE_HEADERS, JsonResponse;
      AddToStarted(wire, f);
      threw := EnsureSseHeadersSent();
      if threw {
        AddFrameExtends(wire, f);
        Drop(AddFrame(wire, f));
        return;
      }
      threw := SendOrDrop(f, text);
    }

    // The end of a stream that has not ended, after the headers if these are still due.
    method Terminate(text: string) returns (threw: bool)
      requires OnWire() && HeadAgrees() && text == FrameText(Done) + "\n\n"
      requires !socket.gone ==> wire.Nothing? || (wire.Stream? && !Ended(wire.frames))
      modifies this`wire, this`sseHeadersSent, socket
      ensures OnWire() && HeadAgrees() && wire == AddFrame(old(wire), Done)
      ensures threw ==> socket.gone
      ensures socket.gone && !old(socket.gone) ==> threw
      ensures old(socket.gone) ==> socket.gone
    {
      hide SSE_HEADERS, JsonResponse;
      AddToStarted(wire, Done);
      threw := EnsureSseHeadersSent();
      if threw {
        AddFrameExtends(wire, Done);
        Drop(AddFrame(wire, Done));
        return;
      }
      threw := SendFrame(Done, text);
    }

    method WriteChunk(text: string) returns (threw: bool)
      requires Valid()
      modifies this, socket
      ensures Valid() && wire == Apply(old(wire), Call.WriteChunk(text))
      ensures threw ==> socket.gone
      ensures socket.gone && !old(socket.gone) ==> threw
      ensures old(socket.gone) ==> socket.gone
    {
      hide SSE_HEADERS, JsonResponse;
      var frame := ContentFrame(text);
      threw := SendOpenFrame(Content(text), frame);
    }

    method WriteUsage(promptTokens: int, completionTokens: int, reason: string) returns (threw: bool)
      requires Valid()
      modifies this, socket
      ensures Valid() && wire == Apply(old(wire), Call.WriteUsage(promptTokens, completionTokens, reason))
      ensures threw ==> socket.gone
      ensures socket.gone && !old(socket.gone) ==> threw
      ensures old(socket.gone) ==> socket.gone
    {
      hide SSE_HEADERS, JsonResponse;
      var frame := UsageFrame(promptTokens, completionTokens, reason);
      threw := SendOpenFrame(Usage(promptTokens, completionTokens, reason), frame);
    }

    method WriteDone() returns (threw: bool)
      requires Valid()
      modifies this, socket
      ensures Valid() && wire == Apply(old(wire), Call.WriteDone)
      ensures threw ==> socket.gone
      ensures socket.gone && !old(socket.gone) ==> threw
      ensures old(socket.gone) ==> socket.gone
    {
      hide SSE_HEADERS, JsonResponse;
      if jsonResponseSent || doneSent || errorSent {
        AddFrameExtends(wire, Done);
        Drop(AddFrame(wire, Done));
        return false;
      }
      doneSent := true;
      var frame := DoneFrame();
      threw := Terminate(frame);
    }

    method WriteError(message: string) returns (threw: bool)
      requires Valid()
      modifies this, socket
      ensures Valid() && wire == Apply(old(wire), Call.WriteError(message))
      ensures old(wire).Nothing? && !socket.gone ==> TellsErrorIn(socket.sent, message)
      ensures threw ==> socket.gone
      ensures old(socket.gone) ==> socket.gone
    {
      hide SSE_HEADERS, JsonResponse, TellsErrorIn;
      ErrorIsTold(message);
      ghost var next := Apply(wire, Call.WriteError(message));
      ApplyExtends(wire, Call.WriteError(message));
      if jsonResponseSent {
        Drop(next);
        return false;
      }
      var body := ErrorBody(message);
      if !sseHeadersSent {
        WriteJsonResponse(500, body);
        Drop(next);
        return false;
      }
      if doneSent || errorSent {
        Drop(next);
        return false;
      }
      errorSent := true;
      var frame := ErrorFrame(message, body);
      threw := SendFrame(Failure(message), frame);
    }
  }

  // ---------------------------------------------------------------- serving a streaming request

  // How a handler ends after its calls.
  datatype Ending = Returned | Threw(what: string)

  function LastCall(ending: Ending): Call {
    match ending
    case Returned => WriteDone
    case Threw(what) => WriteError(what)
  }

  // The response to a handler that makes these calls and then ends.
  function Response(script: seq<Call>, ending: Ending): Wire {
    Apply(ApplyAll(Nothing, script), LastCall(ending))
  }

  method Perform(w: Writer, c: Call) returns (threw: bool)
    requires w.Valid()
    modifies w, w.socket
    ensures w.Valid() && w.wire == Apply(old(w.wire), c)
    ensures threw ==> w.socket.gone
    ensures old(w.socket.gone) ==> w.socket.gone
  {
    hide SSE_HEADERS, JsonResponse;
    match c
    case WriteJson(status, body) =>
      w.WriteJsonResponse(status, body);
      threw := false;
    case WriteChunk(text) => threw := w.WriteChunk(text);
    case WriteUsage(p, n, reason) => threw := w.WriteUsage(p, n, reason);
    case WriteDone => threw := w.WriteDone();
    case WriteError(message) => threw := w.WriteError(message);
  }

  // The handler's calls; it may catch the exception of a failed write and go on, or let it escape.
  method RunHandler(w: Writer, script: seq<Call>) returns (escaped: bool)
    requires w.Valid() && w.wire == Nothing
    modifies w, w.socket
    ensures w.Valid()
    ensures escaped ==> w.socket.gone
    ensures !escaped ==> w.wire == ApplyAll(Nothing, script)
  {
    hide SSE_HEADERS, JsonResponse;
    var i := 0;
    while i < |script|
      invariant 0 <= i <= |script|
      invariant w.Valid() && ApplyAll(w.wire, script[i..]) == ApplyAll(Nothing, script)
    {
      assert script[i..][1..] == script[i + 1..];
      var threw := Perform(w, script[i]);
      if threw {
        if * {
          return true;
        }
      }
      i := i + 1;
    }
    return false;
  }

  // The dispatch of one streaming request. Whatever the handler does and however its sends fare, what reaches the
  // peer is a prefix of one complete response; a peer that stays gets all of it.
  method Serve(socket: Socket, script: seq<Call>, ending: Ending) returns (ghost response: Wire)
    requires socket.sent == "" && !socket.gone
    modifies socket
    ensures Complete(response) && socket.sent <= Render(response)
    ensures !socket.gone ==> response == Response(script, ending) && socket.sent == Render(response)
    ensures !socket.gone ==> Told(script, ending, socket.sent)
  {
    hide SSE_HEADERS, JsonResponse, Told;
    ResponseIsTold(script, ending);
    var w := new Writer(socket);
    var escaped := RunHandler(w, script);
    var failure := if escaped then Some("peer gone") else if ending.Threw? then Some(ending.what) else None;
    LastCallCompletes(w.wire, Returned);
    if failure == None {
      var threw := w.WriteDone();
      failure := if threw then Some("peer gone") else None;
      response := w.wire;
    }
    if failure != None {
      ApplyExtends(w.wire, WriteError(failure.value));
      LastCallCompletes(w.wire, Threw(failure.value));
      var _ := w.WriteError(failure.value);
      response := w.wire;
    }
  }

  // The call that ends a response completes it, whatever was sent before.
  lemma {:induction false} LastCallCompletes(w: Wire, ending: Ending)
    requires WellFormed(w)
    ensures Complete(Apply(w, LastCall(ending)))
  {
  }

  // A request is answered by exactly one JSON response, or by a stream with exactly one terminal frame.
  lemma {:induction false} OneEnding(script: seq<Call>, ending: Ending)
    ensures Complete(Response(script, ending))
  {
    ApplyAllExtends(Nothing, script);
    LastCallCompletes(ApplyAll(Nothing, script), ending);
  }

  // Chunks and usage reports.
  function OpenFrame(c: Call): Option<Frame> {
    match c
    case WriteChunk(text) => Some(Content(text))
    case WriteUsage(p, n, reason) => Some(Usage(p, n, reason))
    case _ => None
  }

  ghost predicate OnlyStreams(script: seq<Call>) {
    forall i :: 0 <= i < |script| ==> OpenFrame(script[i]).Some?
  }

  function FramesOf(script: seq<Call>): seq<Frame>
    requires OnlyStreams(script)
  {
    if script == [] then [] else [OpenFrame(script[0]).value] + FramesOf(script[1..])
  }

  lemma {:induction false} StreamedFrames(w: Wire, script: seq<Call>)
    requires OnlyStreams(script) && (w.Nothing? || (w.Stream? && !Ended(w.frames)))
    ensures var fs := (if w.Nothing? then [] else w.frames) + FramesOf(script);
            ApplyAll(w, script) == if w.Nothing? && script == [] then Nothing else Stream(fs)
    ensures forall i :: 0 <= i < |FramesOf(script)| ==> !IsTerminal(FramesOf(script)[i])
    decreases |script|
  {
    if script == [] {
      if w.Stream? {
        assert w.frames + [] == w.frames;
      }
    } else {
      assert OnlyStreams(script[1..]);
      var f := OpenFrame(script[0]).value;
      var next := AddFrame(w, f);
      assert Apply(w, script[0]) == next;
      StreamedFrames(next, script[1..]);
      var before := if w.Nothing? then [] else w.frames;
      assert next.frames == before + [f];
      ConcatAssociates(before, [f], FramesOf(script[1..]));
    }
  }

  // The three outcomes of a stream, for any handler that only streams. A handler that returned reads as its frames,
  // and one that threw as its frames and an error frame, if and only if no content reads as the sentinel; and under
  // the same condition a body that breaks off anywhere makes the reader throw. What it yields is always a prefix.
  lemma {:induction false} OutcomesAreDistinguishable(script: seq<Call>, ending: Ending)
    requires OnlyStreams(script)
    requires ending.Threw? ==> script != []
    ensures var r, fs := Response(script, ending), FramesOf(script);
            && r.Stream?
            && var body := StreamText(r.frames);
               && Outcome(body).1
               && (Outcome(body).0 == SaidAll(fs) + (if ending.Returned? then [] else [Said(Failure(ending.what))])
                   <==> Flowing(fs))
               && ((forall got :: got < body ==> !Outcome(got).1) <==> Flowing(fs))
               && (forall got :: got < body ==> Outcome(got).0 <= Outcome(body).0)
  {
    hide Outcome;
    var fs := FramesOf(script);
    var t := if ending.Returned? then Done else Failure(ending.what);
    StreamThenEnding(script, ending);
    StreamedFrames(Nothing, script);
    StreamOutcome(fs, t);
    StreamReadsBack(fs + [t]);
    forall got | got < StreamText(fs + [t]) ensures Outcome(got).0 <= Outcome(StreamText(fs + [t])).0 {
      TruncationIsDetected(fs + [t], got);
    }
  }

  lemma {:induction false} StreamThenEnding(script: seq<Call>, ending: Ending)
    requires OnlyStreams(script)
    requires ending.Threw? ==> script != []
    ensures Response(script, ending) == Stream(FramesOf(script)
        + [if ending.Returned? then Done else Failure(ending.what)])
  {
    var fs := FramesOf(script);
    StreamedFrames(Nothing, script);
    assert [] + fs == fs;
    NotEnded(fs);
    if script == [] {
      assert fs + [Done] == [Done];
    }
  }

  lemma {:induction false} NotEnded(fs: seq<Frame>)
    requires forall i :: 0 <= i < |fs| ==> !IsTerminal(fs[i])
    ensures !Ended(fs)
  {
  }

  // ---------------------------------------------------------------- what the peer reads

  // A complete JSON response: its body is as long as it declares.
  ghost predicate TellsJson(m: Message, status: int) {
    && m.status == status && FieldValue(m.fields, "Content-Type") == Some("application/json")
    && DeclaredLength(m) == Some(|m.body|)
  }

  // A failure: a 500 whose body is an object with the message as its "error" member.
  ghost predicate TellsError(m: Message, message: string) {
    TellsJson(m, 500) && StringOf(m.body, "error") == Some(message)
  }

  // A stream that was finished properly; its end is the end of the connection.
  ghost predicate TellsStream(m: Message) {
    && m.status == 200 && FieldValue(m.fields, "Content-Type") == Some("text/event-stream")
    && DeclaredLength(m) == None && Outcome(m.body).1
  }

  // Three-digit status codes.
  predicate IsStatus(n: int) { 100 <= n <= 999 }

  // What the bytes of a whole response tell, from the handler's calls: its first call, or its exception if it made
  // none, decides between a JSON response and a stream.
  ghost predicate Told(script: seq<Call>, ending: Ending, bytes: string) {
    var m := ReadMessage(bytes);
    if script == [] && ending.Threw? then TellsErrorIn(bytes, ending.what)
    else if script != [] && script[0].WriteError? then TellsErrorIn(bytes, script[0].message)
    else if script != [] && script[0].WriteJson? then
      IsStatus(script[0].status) ==> m.Some? && TellsJson(m.value, script[0].status) && m.value.body == script[0].body
    else
      && m.Some? && TellsStream(m.value)
      && (OnlyStreams(script) ==> TellsFrames(script, ending, m.value.body))
  }

  // The reader yields the handler's frames, and an error frame if it threw, if and only if no content reads as the
  // sentinel.
  ghost predicate TellsFrames(script: seq<Call>, ending: Ending, body: string)
    requires OnlyStreams(script)
  {
    var fs := FramesOf(script);
    Outcome(body).0 == SaidAll(fs) + (if ending.Returned? then [] else [Said(Failure(ending.what))]) <==> Flowing(fs)
  }

  lemma {:induction false} ResponseIsTold(script: seq<Call>, ending: Ending)
    ensures Told(script, ending, Render(Response(script, ending)))
  {
    hide Render, Outcome, ReadMessage, OnlyStreams, TellsFrames, TellsErrorIn, TellsJson, TellsStream, IsStatus;
    var r := Response(script, ending);
    FirstCallDecides(script, ending);
    if script == [] && ending.Threw? {
      ErrorIsTold(ending.what);
    } else if script != [] && script[0].WriteError? {
      ErrorIsTold(script[0].message);
    } else if script != [] && script[0].WriteJson? {
      if IsStatus(script[0].status) {
        JsonIsTold(script[0].status, script[0].body);
      }
    } else {
      OneEnding(script, ending);
      StreamIsTold(r.frames);
      if OnlyStreams(script) {
        FramesAreTold(script, ending);
      }
    }
  }

  lemma {:induction false} FramesAreTold(script: seq<Call>, ending: Ending)
    requires OnlyStreams(script) && Response(script, ending).Stream?
    ensures TellsFrames(script, ending, StreamText(Response(script, ending).frames))
  {
    hide Outcome, FramesOf;
    FirstCallDecides(script, ending);
    OutcomesAreDistinguishable(script, ending);
  }

  // The response is the JSON response that the first call asks for, or a stream.
  lemma {:induction false} FirstCallDecides(script: seq<Call>, ending: Ending)
    ensures var r := Response(script, ending);
            if script == [] then
              if ending.Threw? then r == Json(500, ErrorPayload(ending.what)) else r.Stream?
            else match script[0]
                 case WriteJson(status, body) => r == Json(status, body)
                 case WriteError(message) => r == Json(500, ErrorPayload(message))
                 case _ => r.Stream?
  {
    hide ErrorPayload, Render;
    if script != [] {
      var w := Apply(Nothing, script[0]);
      ApplyAllExtends(w, script[1..]);
      StaysStream(w, script[1..]);
      ApplyExtends(ApplyAll(w, script[1..]), LastCall(ending));
    }
  }

  lemma {:induction false} StaysStream(w: Wire, calls: seq<Call>)
    ensures w.Stream? ==> ApplyAll(w, calls).Stream?
    decreases |calls|
  {
    hide IsTerminal, ErrorPayload;
    if calls != [] {
      StaysStream(Apply(w, calls[0]), calls[1..]);
    }
  }

  ghost predicate TellsErrorIn(bytes: string, message: string) {
    var m := ReadMessage(bytes); m.Some? && TellsError(m.value, message)
  }

  lemma {:induction false} ErrorIsTold(message: string)
    ensures TellsErrorIn(Render(Json(500, ErrorPayload(message))), message)
  {
    hide ReadMessage, Render, ErrorPayload, TellsJson;
    JsonIsTold(500, ErrorPayload(message));
    ErrorReadsBack(message);
  }

  lemma {:induction false} JsonIsTold(status: int, body: string)
    requires IsStatus(status)
    ensures var m := ReadMessage(Render(Json(status, body)));
            m.Some? && TellsJson(m.value, status) && m.value.body == body
  {
    JsonByLines(status, body);
    JsonFieldsFacts(body);
    NumberReadsBack(status);
    ThreeDigits(status);
    ReasonIsOneLine(status);
    hide Head, ReadMessage, JsonResponse, StatusText, ToString, FieldValue, JsonFields, DeclaredLength, OneLine,
      OnlyDigits;
    MessageReadsBack(ToString(status), StatusText(status), JsonFields(body), body);
  }

  function JsonFields(body: string): seq<string> {
    ["Content-Type: application/json", "Content-Length: " + ToString(|body|), "Connection: close"]
  }

  lemma {:induction false} JsonFieldsFacts(body: string)
    ensures forall i :: 0 <= i < |JsonFields(body)| ==> JsonFields(body)[i] != "" && OneLine(JsonFields(body)[i])
    ensures FieldValue(JsonFields(body), "Content-Type") == Some("application/json")
    ensures forall status :: DeclaredLength(Message(status, JsonFields(body), body)) == Some(|body|)
  {
    NumberReadsBack(|body|);
    FieldsOfJson(ToString(|body|));
    hide ToString;
  }

  lemma {:induction false} FieldsOfJson(length: string)
    requires OneLine(length)
    ensures var fields := ["Content-Type: application/json", "Content-Length: " + length, "Connection: close"];
            && (forall i :: 0 <= i < 3 ==> fields[i] != "" && OneLine(fields[i]))
            && FieldValue(fields, "Content-Type") == Some("application/json")
            && FieldValue(fields, "Content-Length") == Some(length)
  {
    var second := "Content-Length: " + length;
    FieldOfThree("Content-Type: application/json", second, "Connection: close", "Content-Type");
    FieldOfThree("Content-Type: application/json", second, "Connection: close", "Content-Length");
    JsonLines(length);
    hide FieldValue, OneLine;
    ColonAdded();
    JsonValues(length);
  }

  lemma {:induction false} JsonLines(length: string)
    requires OneLine(length)
    ensures OneLine("Content-Type: application/json") && OneLine("Content-Length: " + length)
        && OneLine("Connection: close")
  {
    assert OneLine("Content-Length: ");
  }

  lemma {:induction false} JsonValues(length: string)
    ensures "Content-Type: application/json"[14..] == "application/json"
    ensures ("Content-Length: " + length)[16..] == length
    ensures !("Content-Length: " <= "Content-Type: application/json")
  {
    assert "Content-Type: application/json"[8] == 'T' && "Content-Length: "[8] == 'L';
  }

  lemma {:induction false} ColonAdded()
    ensures "Content-Type" + ": " == "Content-Type: " && "Content-Length" + ": " == "Content-Length: "
  {
  }

  lemma {:induction false} ReasonIsOneLine(status: int)
    ensures OneLine(StatusText(status))
  {
  }

  // The JSON response, line by line.
  lemma {:induction false} JsonByLines(status: int, body: string)
    ensures JsonResponse(status, body)
         == Head(["HTTP/1.1 " + ToString(status) + " " + StatusText(status)] + JsonFields(body), body)
  {
    var line, length := "HTTP/1.1 " + ToString(status) + " " + StatusText(status),
        "Content-Length: " + ToString(|body|);
    hide ToString, StatusText;
    HeadOfFour(line, "Content-Type: application/json", length, "Connection: close", body);
  }

  lemma {:induction false} HeadOfFour(a: string, b: string, c: string, d: string, body: string)
    ensures Head([a] + [b, c, d], body) == a + CRLF + b + CRLF + c + CRLF + d + CRLF + CRLF + body
  {
    var all := [a] + [b, c, d];
    assert all[1..] == [b, c, d] && [b, c, d][1..] == [c, d] && [c, d][1..] == [d] && [d][1..] == [];
    assert Head([d], body) == d + (CRLF + Head([], body));
    assert Head([c, d], body) == c + (CRLF + Head([d], body));
    assert Head([b, c, d], body) == b + (CRLF + Head([c, d], body));
    RegroupHead(a, CRLF, b, c, d, body);
  }

  lemma {:induction false} RegroupHead(a: string, br: string, b: string, c: string, d: string, body: string)
    ensures a + (br + (b + (br + (c + (br + (d + (br + (br + body))))))))
         == a + br + b + br + c + br + d + br + br + body
  {
    var z := br + (br + body);
    var y := br + (d + z);
    var x := br + (c + y);
    Associate(a, br, b + x);
    Associate(a + br, b, x);
    var p := a + br + b;
    Associate(p, br, c + y);
    Associate(p + br, c, y);
    var q := p + br + c;
    Associate(q, br, d + z);
    Associate(q + br, d, z);
    var s := q + br + d;
    Associate(s, br, br + body);
    Associate(s + br, br, body);
  }

  // The event stream's own header and whatever frames follow.
  lemma {:induction false} StreamIsTold(frames: seq<Frame>)
    requires WellFormed(Stream(frames)) && Ended(frames)
    ensures var m := ReadMessage(Render(Stream(frames)));
            m.Some? && TellsStream(m.value) && m.value.body == StreamText(frames)
  {
    StreamHeaderReads(StreamText(frames));
    hide StreamText, Outcome, ReadMessage, FieldValue, SSE_HEADERS, DeclaredLength;
    StreamReadsBack(frames);
    ViewIsFinished(frames, false);
    TerminalEnds(frames);
  }

  lemma {:induction false} StreamHeaderReads(body: string)
    ensures var m := ReadMessage(SSE_HEADERS + body);
            && m.Some? && m.value.status == 200 && m.value.body == body && DeclaredLength(m.value) == None
            && FieldValue(m.value.fields, "Content-Type") == Some("text/event-stream")
  {
    var fields := ["Content-Type: text/event-stream", "Cache-Control: no-cache", "Connection: close"];
    OkLine();
    HeadOfFour("HTTP/1.1 200 OK", fields[0], fields[1], fields[2], body);
    StreamFieldsFacts(fields);
    assert SSE_HEADERS + body == Head(["HTTP/1.1 200 OK"] + fields, body);
    hide SSE_HEADERS, ReadMessage, Head, FieldValue, OneLine;
    MessageReadsBack("200", "OK", fields, body);
  }

  lemma {:induction false} OkLine()
    ensures "HTTP/1.1 " + "200" + " " + "OK" == "HTTP/1.1 200 OK"
    ensures OnlyDigits("200") && DigitsValue("200") == 200 && OneLine("OK")
  {
    assert "200"[..2] == "20" && "20"[..1] == "2" && "2"[..0] == "";
    assert DigitsValue("20") == 20 && DigitsValue("2") == 2;
  }

  lemma {:induction false} StreamFieldsFacts(fields: seq<string>)
    requires fields == ["Content-Type: text/event-stream", "Cache-Control: no-cache", "Connection: close"]
    ensures forall i :: 0 <= i < 3 ==> fields[i] != "" && OneLine(fields[i])
    ensures FieldValue(fields, "Content-Type") == Some("text/event-stream")
    ensures FieldValue(fields, "Content-Length") == None
  {
    FieldOfThree(fields[0], fields[1], fields[2], "Content-Type");
    FieldOfThree(fields[0], fields[1], fields[2], "Content-Length");
    StreamLines();
    hide FieldValue, OneLine;
    ColonAdded();
    NoLengthThere();
  }

  lemma {:induction false} FieldOfThree(a: string, b: string, c: string, name: string)
    ensures FieldValue([a, b, c], name)
         == if name + ": " <= a then Some(a[|name| + 2..])
            else if name + ": " <= b then Some(b[|name| + 2..])
            else if name + ": " <= c then Some(c[|name| + 2..])
            else None
  {
    assert [a, b, c][1..] == [b, c] && [b, c][1..] == [c] && [c][1..] == [];
    assert FieldValue([c], name) == if name + ": " <= c then Some(c[|name| + 2..]) else FieldValue([], name);
    assert FieldValue([b, c], name) == if name + ": " <= b then Some(b[|name| + 2..]) else FieldValue([c], name);
  }

  lemma {:induction false} StreamLines()
    ensures OneLine("Content-Type: text/event-stream") && OneLine("Cache-Control: no-cache")
        && OneLine("Connection: close")
  {
  }

  lemma {:induction false} NoLengthThere()
    ensures "Content-Type: text/event-stream"[14..] == "text/event-stream"
    ensures !("Content-Length: " <= "Content-Type: text/event-stream")
    ensures !("Content-Length: " <= "Cache-Control: no-cache")
    ensures !("Content-Length: " <= "Connection: close")
  {
    assert "Content-Length: "[8] == 'L' && "Content-Type: text/event-stream"[8] == 'T';
    assert "Content-Length: "[1] == 'o' && "Cache-Control: no-cache"[1] == 'a';
    assert "Content-Length: "[3] == 't' && "Connection: close"[3] == 'n';
  }

  lemma {:induction false} TerminalEnds(frames: seq<Frame>)
    requires Ended(frames)
    ensures EndsStream(frames[|frames| - 1])
  {
  }

  // ---------------------------------------------------------------- how the text grows

  lemma {:induction false} PartOf(before: string, data: string, sent: string)
    requires exists k :: 0 <= k <= |data| && sent == before + data[..k]
    ensures sent <= before + data
  {
  }

  lemma {:induction false} AddToStarted(w: Wire, f: Frame)
    ensures AddFrame(WithHeaders(w), f) == AddFrame(w, f)
  {
  }

  // The response once the stream's headers are due.
  function WithHeaders(w: Wire): Wire { if w.Nothing? then Stream([]) else w }

  lemma {:induction false} StartGrowth(w: Wire)
    requires WellFormed(w)
    ensures WellFormed(WithHeaders(w)) && Render(w) <= Render(WithHeaders(w))
    ensures w.Nothing? ==> Render(WithHeaders(w)) == Render(w) + SSE_HEADERS
    ensures SSE_HEADERS != ""
  {
  }

  lemma {:induction false} FrameGrowth(w: Wire, f: Frame)
    requires w.Stream? && !Ended(w.frames)
    ensures Render(AddFrame(w, f)) == Render(w) + (FrameText(f) + "\n\n")
  {
    hide SSE_HEADERS, JsonResponse, StreamText, FrameText, IsTerminal;
    StreamTextSnoc(w.frames, f);
    ConcatAssociates(SSE_HEADERS, StreamText(w.frames), FrameText(f) + "\n\n");
  }

  lemma {:induction false} JsonGrowth(status: int, body: string)
    ensures Render(Json(status, body)) == Render(Nothing) + JsonResponse(status, body)
        && JsonResponse(status, body) != ""
  {
  }
}
