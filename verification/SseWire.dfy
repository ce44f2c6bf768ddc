// The Server-Sent Events dialect between the node agent (core/src/http_server.cpp, the writer) and the
// coordinator (coordinator/src/sse_frames.ts, the reader); section 9.2 of the WHATWG HTML standard.
// Decoding bytes to characters is not part of this model.
module SseWire {
  import opened Options
  import opened JsonText
  import opened JsonTree

  // ---------------------------------------------------------------- lines

  // The lines of a text, where CRLF, CR and LF each end one.
  function Lines(s: string): (ls: seq<string>)
    ensures ls != []
    decreases |s|
  {
    if s == "" then [""]
    else if s[0] == '\r' && |s| > 1 && s[1] == '\n' then [""] + Lines(s[2..])
    else if s[0] == '\r' || s[0] == '\n' then [""] + Lines(s[1..])
    else var ls := Lines(s[1..]); [[s[0]] + ls[0]] + ls[1..]
  }

  // Every line break becomes one LF.
  function Normalise(s: string): string
    decreases |s|
  {
    if s == "" then ""
    else if s[0] == '\r' && |s| > 1 && s[1] == '\n' then "\n" + Normalise(s[2..])
    else if s[0] == '\r' || s[0] == '\n' then "\n" + Normalise(s[1..])
    else [s[0]] + Normalise(s[1..])
  }

  function JoinLines(ls: seq<string>): string {
    if ls == [] then "" else if |ls| == 1 then ls[0] else ls[0] + ("\n" + JoinLines(ls[1..]))
  }

  // JavaScript's split("\n").
  function SplitLines(s: string): (ls: seq<string>)
    ensures ls != []
  {
    if s == "" then [""]
    else if s[0] == '\n' then [""] + SplitLines(s[1..])
    else var ls := SplitLines(s[1..]); [[s[0]] + ls[0]] + ls[1..]
  }

  predicate NoNewline(s: string) {
    forall i :: 0 <= i < |s| ==> s[i] != '\n'
  }

  lemma {:induction false} LinesFacts(s: string)
    ensures JoinLines(Lines(s)) == Normalise(s)
    ensures forall i :: 0 <= i < |Lines(s)| ==> NoNewline(Lines(s)[i])
    decreases |s|
  {
    if s != "" {
      if s[0] == '\r' && |s| > 1 && s[1] == '\n' {
        LinesFacts(s[2..]);
      } else if s[0] == '\r' || s[0] == '\n' {
        LinesFacts(s[1..]);
      } else {
        LinesFacts(s[1..]);
        var ls := Lines(s[1..]);
        JoinGrowsFirst(s[0], ls);
      }
    }
  }

  lemma {:induction false} JoinGrowsFirst(c: char, ls: seq<string>)
    requires ls != []
    ensures JoinLines([[c] + ls[0]] + ls[1..]) == [c] + JoinLines(ls)
  {
  }

  // Splitting undoes joining.
  lemma {:induction false} SplitJoined(ls: seq<string>)
    requires ls != [] && forall i :: 0 <= i < |ls| ==> NoNewline(ls[i])
    ensures SplitLines(JoinLines(ls)) == ls
  {
    if |ls| == 1 {
      SplitOneLine(ls[0]);
      assert ls == [ls[0]];
    } else {
      SplitJoined(ls[1..]);
      SplitFirstLine(ls[0], JoinLines(ls[1..]));
      assert ls == [ls[0]] + ls[1..];
    }
  }

  lemma {:induction false} SplitOneLine(l: string)
    requires NoNewline(l)
    ensures SplitLines(l) == [l]
  {
    if l != "" {
      SplitOneLine(l[1..]);
      assert [l[0]] + l[1..] == l;
    }
  }

  lemma {:induction false} SplitFirstLine(l: string, rest: string)
    requires NoNewline(l)
    ensures SplitLines(l + ("\n" + rest)) == [l] + SplitLines(rest)
  {
    if l == "" {
      assert l + ("\n" + rest) == "\n" + rest && ("\n" + rest)[1..] == rest;
    } else {
      var s := l + ("\n" + rest);
      assert s[1..] == l[1..] + ("\n" + rest);
      SplitFirstLine(l[1..], rest);
      assert [l[0]] + l[1..] == l;
    }
  }

  // ---------------------------------------------------------------- writing frames

  datatype Frame =
    | Content(text: string)
    | Usage(promptTokens: int, completionTokens: int, reason: string)
    | Done
    | Failure(message: string)

  function DataLines(ls: seq<string>): seq<string> {
    if ls == [] then [] else ["data: " + ls[0]] + DataLines(ls[1..])
  }

  // std::to_string
  function ToString(n: int): string {
    if n < 0 then "-" + Decimal(-n) else Decimal(n)
  }

  function UsagePayload(p: int, c: int, reason: string): string {
    "{\"prompt_tokens\":" + ToString(p) + ",\"completion_tokens\":" + ToString(c)
    + ",\"finish_reason\":\"" + Escape(reason) + "\"}"
  }

  function ErrorPayload(message: string): string {
    "{\"error\":\"" + Escape(message) + "\"}"
  }

  // The lines of a frame; on the wire a blank line follows.
  function FrameLines(f: Frame): seq<string> {
    match f
    case Content(text) => DataLines(Lines(text))
    case Usage(p, c, reason) => ["event: usage", "data: " + UsagePayload(p, c, reason)]
    case Done => ["data: [DONE]"]
    case Failure(message) => ["event: error", "data: " + ErrorPayload(message)]
  }

  function FrameText(f: Frame): string { JoinLines(FrameLines(f)) }

  function StreamText(fs: seq<Frame>): string {
    if fs == [] then "" else FrameText(fs[0]) + ("\n\n" + StreamText(fs[1..]))
  }

  // ---------------------------------------------------------------- reading frames

  datatype SseFrame = SseFrame(event: Option<string>, data: string)

  function FirstBlank(s: string): Option<nat> {
    if |s| < 2 then None
    else if s[0] == '\n' && s[1] == '\n' then Some(0)
    else match FirstBlank(s[1..]) case Some(k) => Some(k + 1) case None => None
  }

  lemma {:induction false} FirstBlankInRange(s: string)
    ensures FirstBlank(s).Some? ==> FirstBlank(s).value + 2 <= |s|
  {
    if |s| >= 2 && !(s[0] == '\n' && s[1] == '\n') {
      FirstBlankInRange(s[1..]);
    }
  }

  // JavaScript's split("\n\n").
  function Pieces(s: string): (ps: seq<string>)
    ensures ps != []
    decreases |s|
  {
    FirstBlankInRange(s);
    match FirstBlank(s)
    case None => [s]
    case Some(k) => [s[..k]] + Pieces(s[k + 2..])
  }

  function EventOf(lines: seq<string>): Option<string> {
    if lines == [] then None
    else if "event: " <= lines[0] then Some(lines[0][7..])
    else EventOf(lines[1..])
  }

  function DataOf(lines: seq<string>): seq<string> {
    if lines == [] then [] else (if "data: " <= lines[0] then [lines[0][6..]] else []) + DataOf(lines[1..])
  }

  // What one frame says; a frame without data says nothing.
  function Interpret(frame: string): Option<SseFrame> {
    var lines := SplitLines(frame);
    var data := DataOf(lines);
    if data == [] then None else Some(SseFrame(EventOf(lines), JoinLines(data)))
  }

  // The reader after some frames: what it yielded, whether [DONE] ended it, whether an error frame was seen.
  datatype Progress = Progress(yielded: seq<SseFrame>, done: bool, sawTerminal: bool)

  function Take(p: Progress, frame: string): Progress {
    if p.done then p
    else match Interpret(frame)
         case None => p
         case Some(f) =>
           if f.data == "[DONE]" then p.(done := true, sawTerminal := true)
           else Progress(p.yielded + [f], false, p.sawTerminal || f.event == Some("error"))
  }

  function TakeAll(p: Progress, frames: seq<string>): Progress
    decreases |frames|
  {
    if frames == [] then p else TakeAll(Take(p, frames[0]), frames[1..])
  }

  const START: Progress := Progress([], false, false)

  // The reader's result on a whole stream: what it yielded, and whether it finished instead of throwing.
  function Outcome(stream: string): (seq<SseFrame>, bool) {
    var ps := Pieces(stream);
    var p := TakeAll(START, ps[..|ps| - 1]);
    (p.yielded, p.sawTerminal)
  }

  function Concat(chunks: seq<string>): string {
    if chunks == [] then "" else Concat(chunks[..|chunks| - 1]) + chunks[|chunks| - 1]
  }

  // The frames of one read, up to the terminator if there is one.
  method TakeFrames(p0: Progress, frames: seq<string>) returns (p: Progress)
    ensures p == TakeAll(p0, frames)
  {
    p := p0;
    var j := 0;
    while j < |frames| && !p.done
      invariant 0 <= j <= |frames|
      invariant TakeAll(p, frames[j..]) == TakeAll(p0, frames)
    {
      assert frames[j..][1..] == frames[j + 1..];
      p := Take(p, frames[j]);
      j := j + 1;
    }
    if p.done {
      TakeAllDone(p, frames[j..]);
    } else {
      assert frames[j..] == [];
    }
  }

  // The generator: its reads may cut the stream anywhere.
  method ReadSseFrames(chunks: seq<string>) returns (yielded: seq<SseFrame>, finished: bool)
    ensures (yielded, finished) == Outcome(Concat(chunks))
  {
    var buffer := "";
    var p := START;
    ghost var taken: seq<string> := [];
    assert Pieces("") == [""];
    for i := 0 to |chunks|
      invariant Pieces(Concat(chunks[..i])) == taken + [buffer]
      invariant p == TakeAll(START, taken) && !p.done
    {
      var ps := Pieces(buffer + chunks[i]);
      ghost var before := taken;
      NextRead(chunks, i, before, buffer, ps);
      var frames := ps[..|ps| - 1];
      buffer := ps[|ps| - 1];
      p := TakeFrames(p, frames);
      TakeAllAppend(START, before, frames);
      taken := before + frames;
      if p.done {
        StopsAtDone(chunks, i + 1, taken, buffer);
        return p.yielded, true;
      }
    }
    assert chunks[..|chunks|] == chunks;
    assert (taken + [buffer])[..|taken|] == taken;
    return p.yielded, p.sawTerminal;
  }

  lemma {:induction false} NextRead(chunks: seq<string>, i: nat, taken: seq<string>, buffer: string, ps: seq<string>)
    requires i < |chunks| && Pieces(Concat(chunks[..i])) == taken + [buffer]
    requires ps == Pieces(buffer + chunks[i])
    ensures Pieces(Concat(chunks[..i + 1])) == taken + ps[..|ps| - 1] + [ps[|ps| - 1]]
  {
    assert chunks[..i + 1][..i] == chunks[..i];
    PiecesAppend(Concat(chunks[..i]), chunks[i]);
    assert (taken + [buffer])[..|taken|] == taken;
    assert taken + ps == taken + ps[..|ps| - 1] + [ps[|ps| - 1]];
  }

  // Once [DONE] has ended the reader, what the rest of the stream holds does not matter.
  lemma {:induction false} StopsAtDone(chunks: seq<string>, i: nat, taken: seq<string>, buffer: string)
    requires i <= |chunks| && Pieces(Concat(chunks[..i])) == taken + [buffer]
    requires TakeAll(START, taken).done
    ensures Outcome(Concat(chunks)) == (TakeAll(START, taken).yielded, true)
  {
    ConcatSplit(chunks, i);
    PiecesAppend(Concat(chunks[..i]), Concat(chunks[i..]));
    assert (taken + [buffer])[..|taken|] == taken;
    var late := Pieces(buffer + Concat(chunks[i..]));
    assert Pieces(Concat(chunks)) == taken + late;
    assert (taken + late)[..|taken + late| - 1] == taken + late[..|late| - 1];
    TakeAllAppend(START, taken, late[..|late| - 1]);
    TakeAllDone(TakeAll(START, taken), late[..|late| - 1]);
    DoneSaw(START, taken);
  }

  lemma {:induction false} ConcatSplit(chunks: seq<string>, i: nat)
    requires i <= |chunks|
    ensures Concat(chunks) == Concat(chunks[..i]) + Concat(chunks[i..])
    decreases |chunks|
  {
    if i == |chunks| {
      assert chunks[..i] == chunks;
    } else {
      var n := |chunks| - 1;
      ConcatSplit(chunks[..n], i);
      assert chunks[..n][..i] == chunks[..i] && chunks[..n][i..] == chunks[i..][..|chunks[i..]| - 1];
      assert chunks[i..][|chunks[i..]| - 1] == chunks[n];
    }
  }

  lemma {:induction false} TakeAllAppend(p: Progress, a: seq<string>, b: seq<string>)
    ensures TakeAll(p, a + b) == TakeAll(TakeAll(p, a), b)
    decreases |a|
  {
    if a == [] {
      assert a + b == b;
    } else {
      assert (a + b)[1..] == a[1..] + b;
      TakeAllAppend(Take(p, a[0]), a[1..], b);
    }
  }

  lemma {:induction false} TakeAllDone(p: Progress, fs: seq<string>)
    requires p.done
    ensures TakeAll(p, fs) == p
  {
    if fs != [] {
      TakeAllDone(p, fs[1..]);
    }
  }

  lemma {:induction false} DoneSaw(p: Progress, fs: seq<string>)
    requires p.done ==> p.sawTerminal
    ensures TakeAll(p, fs).done ==> TakeAll(p, fs).sawTerminal
    decreases |fs|
  {
    if fs != [] {
      DoneSaw(Take(p, fs[0]), fs[1..]);
    }
  }

  // ---------------------------------------------------------------- splitting is incremental

  lemma {:induction false} FirstBlankAppend(a: string, b: string)
    requires FirstBlank(a).Some?
    ensures FirstBlank(a + b) == FirstBlank(a)
  {
    if !(a[0] == '\n' && a[1] == '\n') {
      assert (a + b)[1..] == a[1..] + b;
      FirstBlankAppend(a[1..], b);
    }
  }

  // Text that arrives later only continues the last piece.
  lemma {:induction false} PiecesAppend(a: string, b: string)
    ensures var ps := Pieces(a); Pieces(a + b) == ps[..|ps| - 1] + Pieces(ps[|ps| - 1] + b)
    decreases |a|
  {
    FirstBlankInRange(a);
    match FirstBlank(a)
    case None =>
      assert [a][..0] + Pieces(a + b) == Pieces(a + b);
    case Some(k) =>
      FirstBlankAppend(a, b);
      var tail := a[k + 2..];
      assert (a + b)[..k] == a[..k] && (a + b)[k + 2..] == tail + b;
      PiecesAppend(tail, b);
      var ps := Pieces(tail);
      LastStays(a[..k], ps);
      ConcatAssociates([a[..k]], ps[..|ps| - 1], Pieces(ps[|ps| - 1] + b));
  }

  lemma {:induction false} ConcatAssociates<T>(a: seq<T>, b: seq<T>, c: seq<T>)
    ensures (a + b) + c == a + (b + c)
  {
  }

  lemma {:induction false} LastStays(first: string, ps: seq<string>)
    requires ps != []
    ensures var all := [first] + ps; all[|all| - 1] == ps[|ps| - 1] && all[..|all| - 1] == [first] + ps[..|ps| - 1]
  {
  }
}
