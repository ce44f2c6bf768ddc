// Greedy and speculative decoding (core/src/inference_engine.cpp, core/src/speculative.cpp) over abstract
// deterministic models. llama.cpp is not part of this model: a model is what its greedy sampler picks after
// a context, which contexts its decoder accepts, and its batch size.
module Speculative {
  import opened Options

  type Token = int

  datatype Model = Model(next: seq<Token> -> Token, decodes: seq<Token> -> bool, nBatch: nat)

  // End-of-generation tokens, and the text of a token (None when the conversion fails).
  datatype Vocab = Vocab(eog: Token -> bool, piece: Token -> Option<string>)

  datatype Failure = TooLong | DecodeFailed | NoText

  // ---------------------------------------------------------------- the meaning of a completion

  // What the target itself would say, one token at a time.
  function Greedy(target: Model, vocab: Vocab, context: seq<Token>, n: int): seq<Token>
    decreases n
  {
    if n <= 0 then []
    else
      var t := target.next(context);
      if vocab.eog(t) then [] else [t] + Greedy(target, vocab, context + [t], n - 1)
  }

  // `said` is what greedy decoding says first when `n` tokens are asked for, and `pieces` are their texts.
  ghost predicate Saying(target: Model, vocab: Vocab, prompt: seq<Token>, n: int, said: seq<Token>,
      pieces: seq<string>) {
    |pieces| == |said| && (
      said == [] ||
      var k := |said| - 1;
      && k < n && Saying(target, vocab, prompt, n, said[..k], pieces[..k])
      && said[k] == target.next(prompt + said[..k]) && !vocab.eog(said[k]) && vocab.piece(said[k]) == Some(pieces[k]))
  }

  lemma {:induction false} OneMore(target: Model, vocab: Vocab, prompt: seq<Token>, n: int, said: seq<Token>,
      pieces: seq<string>, t: Token)
    requires Saying(target, vocab, prompt, n, said, pieces) && |said| < n && t == target.next(prompt + said)
    ensures vocab.eog(t) ==> Greedy(target, vocab, prompt, n) == said
    ensures !vocab.eog(t) && vocab.piece(t).Some?
        ==> Saying(target, vocab, prompt, n, said + [t], pieces + [vocab.piece(t).value])
  {
    assert (said + [t])[..|said|] == said;
    if vocab.piece(t).Some? {
      assert (pieces + [vocab.piece(t).value])[..|said|] == pieces;
    }
    SayingIsGreedy(target, vocab, prompt, n, said, pieces);
    assert said + [] == said;
  }

  lemma {:induction false} SayingIsGreedy(target: Model, vocab: Vocab, prompt: seq<Token>, n: int, said: seq<Token>,
      pieces: seq<string>)
    requires Saying(target, vocab, prompt, n, said, pieces)
    ensures Greedy(target, vocab, prompt, n) == said + Greedy(target, vocab, prompt + said, n - |said|)
    ensures |said| >= n ==> Greedy(target, vocab, prompt, n) == said
  {
    if said == [] {
      assert prompt + [] == prompt;
    } else {
      var before, last := said[..|said| - 1], said[|said| - 1];
      SayingIsGreedy(target, vocab, prompt, n, before, pieces[..|said| - 1]);
      assert prompt + before + [last] == prompt + said && before + [last] == said;
      assert before + ([last] + Greedy(target, vocab, prompt + said, n - |said|))
          == (before + [last]) + Greedy(target, vocab, prompt + said, n - |said|);
    }
  }

  lemma {:induction false} NothingSaid(target: Model, vocab: Vocab, prompt: seq<Token>, n: int)
    ensures Saying(target, vocab, prompt, n, [], []) && Join([]) == ""
  {
  }

  // Some token of the greedy answer has no text.
  ghost predicate Unsayable(target: Model, vocab: Vocab, prompt: seq<Token>, n: int) {
    exists k :: 0 <= k < |Greedy(target, vocab, prompt, n)| && vocab.piece(Greedy(target, vocab, prompt, n)[k]).None?
  }

  lemma {:induction false} NextIsUnsayable(target: Model, vocab: Vocab, prompt: seq<Token>, n: int, said: seq<Token>,
      pieces: seq<string>)
    requires Saying(target, vocab, prompt, n, said, pieces) && |said| < n
    requires var t := target.next(prompt + said); !vocab.eog(t) && vocab.piece(t).None?
    ensures Unsayable(target, vocab, prompt, n)
  {
    SayingIsGreedy(target, vocab, prompt, n, said, pieces);
    assert Greedy(target, vocab, prompt, n)[|said|] == target.next(prompt + said);
  }

  lemma {:induction false} SaidIsPrefix(target: Model, vocab: Vocab, prompt: seq<Token>, n: int, said: seq<Token>,
      pieces: seq<string>)
    requires Saying(target, vocab, prompt, n, said, pieces)
    ensures said <= Greedy(target, vocab, prompt, n)
  {
    hide Saying;
    SayingIsGreedy(target, vocab, prompt, n, said, pieces);
  }

  lemma {:induction false} SaidHasText(target: Model, vocab: Vocab, prompt: seq<Token>, n: int, said: seq<Token>,
      pieces: seq<string>)
    requires Saying(target, vocab, prompt, n, said, pieces)
    ensures forall k :: 0 <= k < |said| ==> vocab.piece(said[k]) == Some(pieces[k])
  {
    if said != [] {
      SaidHasText(target, vocab, prompt, n, said[..|said| - 1], pieces[..|said| - 1]);
    }
  }

  // Nothing goes wrong: every context decodes and every token has text.
  ghost predicate Sound(model: Model) {
    forall c :: model.decodes(c)
  }

  ghost predicate AllSpeakable(vocab: Vocab) {
    forall t :: vocab.piece(t).Some?
  }

  function Join(pieces: seq<string>): string {
    if pieces == [] then "" else Join(pieces[..|pieces| - 1]) + pieces[|pieces| - 1]
  }

  // The callback wanted more after every piece.
  ghost predicate Welcomed(onToken: seq<string> -> bool, pieces: seq<string>) {
    pieces == [] || (Welcomed(onToken, pieces[..|pieces| - 1]) && onToken(pieces))
  }

  // ---------------------------------------------------------------- greedy streaming

  // `onToken` sees all pieces delivered so far, the new one last; answering false stops the stream.
  // Delivered pieces are reported even when the run then fails.
  method CompleteStreaming(target: Model, vocab: Vocab, prompt: seq<Token>, nPredict: int, onToken: seq<string> -> bool)
    returns (tokens: seq<Token>, pieces: seq<string>, r: Result<(nat, bool), Failure>)
    ensures Saying(target, vocab, prompt, nPredict, tokens, pieces)
    ensures |prompt| > target.nBatch ==> r == Err(TooLong) && tokens == []
    ensures r == Err(TooLong) ==> |prompt| > target.nBatch
    // On success: the count is of accepted pieces; the stream is the whole greedy answer unless the callback
    // stopped it.
    ensures r.Ok? ==>
              && r.value.1 == (r.value.0 >= nPredict)
              && if |tokens| == r.value.0 then Welcomed(onToken, pieces)
                    && tokens == Greedy(target, vocab, prompt, nPredict)
                 else |tokens| == r.value.0 + 1 && Welcomed(onToken, pieces[..r.value.0]) && !onToken(pieces)
    // What goes wrong is the next context or the next token, while more was wanted; before it nothing did.
    ensures forall k :: 0 <= k < |tokens| ==> target.decodes(prompt + tokens[..k])
    ensures r == Err(DecodeFailed) ==>
              |tokens| < nPredict && Welcomed(onToken, pieces) && !target.decodes(prompt + tokens)
    ensures r == Err(NoText) ==>
              && |tokens| < nPredict && Welcomed(onToken, pieces) && target.decodes(prompt + tokens)
              && var t := target.next(prompt + tokens); !vocab.eog(t) && vocab.piece(t).None?
    ensures r.Ok? && |tokens| == r.value.0 < nPredict ==>
              target.decodes(prompt + tokens) && vocab.eog(target.next(prompt + tokens))
    // A sound model answers every prompt that fits the batch.
    ensures Sound(target) && AllSpeakable(vocab) && |prompt| <= target.nBatch ==> r.Ok?
  {
    tokens, pieces := [], [];
    if |prompt| > target.nBatch {
      return tokens, pieces, Err(TooLong);
    }
    var nGenerated := 0;
    while nGenerated < nPredict
      invariant 0 <= nGenerated == |tokens|
      invariant Saying(target, vocab, prompt, nPredict, tokens, pieces)
      invariant Welcomed(onToken, pieces)
      invariant forall k :: 0 <= k < |tokens| ==> target.decodes(prompt + tokens[..k])
    {
      if !target.decodes(prompt + tokens) {
        return tokens, pieces, Err(DecodeFailed);
      }
      var t := target.next(prompt + tokens);
      OneMore(target, vocab, prompt, nPredict, tokens, pieces, t);
      if vocab.eog(t) {
        return tokens, pieces, Ok((nGenerated, nGenerated >= nPredict));
      }
      var piece := vocab.piece(t);
      if piece.None? {
        return tokens, pieces, Err(NoText);
      }
      ghost var before, said := pieces, tokens;
      tokens, pieces := tokens + [t], pieces + [piece.value];
      assert pieces[..nGenerated] == before;
      assert tokens[..nGenerated] == said && forall k :: 0 <= k < nGenerated ==> tokens[..k] == said[..k];
      if !onToken(pieces) {
        return tokens, pieces, Ok((nGenerated, nGenerated >= nPredict));
      }
      nGenerated := nGenerated + 1;
    }
    SayingIsGreedy(target, vocab, prompt, nPredict, tokens, pieces);
    r := Ok((nGenerated, nGenerated >= nPredict));
  }

  // ---------------------------------------------------------------- acceptance

  // The draft's longest agreeing prefix, then the target's own next token.
  method ResolveAcceptance(draft: seq<Token>, predictions: seq<Token>) returns (accepted: seq<Token>)
    requires |predictions| > |draft|
    ensures 1 <= |accepted| <= |draft| + 1
    ensures accepted == predictions[..|accepted|]
    ensures accepted[..|accepted| - 1] == draft[..|accepted| - 1]
    ensures |accepted| <= |draft| ==> draft[|accepted| - 1] != predictions[|accepted| - 1]
  {
    var matchLen := 0;
    while matchLen < |draft| && draft[matchLen] == predictions[matchLen]
      invariant 0 <= matchLen <= |draft|
      invariant forall i :: 0 <= i < matchLen ==> draft[i] == predictions[i]
    {
      matchLen := matchLen + 1;
    }
    accepted := draft[..matchLen] + [predictions[matchLen]];
  }

  // The draft's own continuation of a context.
  function DraftOf(draft: Model, context: seq<Token>, n: nat): seq<Token> {
    if n == 0 then [] else var d := DraftOf(draft, context, n - 1); d + [draft.next(context + d)]
  }

  // Every token is what the target would say after the ones before it.
  ghost predicate SaidBy(target: Model, context: seq<Token>, tokens: seq<Token>) {
    forall i :: 0 <= i < |tokens| ==> tokens[i] == target.next(context + tokens[..i])
  }

  lemma {:induction false} AcceptedIsSaidBy(target: Model, context: seq<Token>, draft: seq<Token>,
      predictions: seq<Token>, accepted: seq<Token>)
    requires |predictions| == |draft| + 1
    requires forall i :: 0 <= i <= |draft| ==> predictions[i] == target.next(context + draft[..i])
    requires 1 <= |accepted| <= |draft| + 1 && accepted == predictions[..|accepted|]
    requires accepted[..|accepted| - 1] == draft[..|accepted| - 1]
    ensures SaidBy(target, context, accepted)
  {
    forall i | 0 <= i < |accepted| ensures accepted[i] == target.next(context + accepted[..i]) {
      assert accepted[..i] == accepted[..|accepted| - 1][..i] == draft[..|accepted| - 1][..i] == draft[..i];
    }
  }

  // ---------------------------------------------------------------- speculative decoding

  ghost predicate Agree(draft: Model, target: Model) {
    forall c :: draft.next(c) == target.next(c)
  }

  lemma {:induction false} AgreeingDraft(draft: Model, target: Model, context: seq<Token>, n: nat)
    requires Agree(draft, target)
    ensures |DraftOf(draft, context, n)| == n
    ensures SaidBy(target, context, DraftOf(draft, context, n))
    decreases n
  {
    if n > 0 {
      AgreeingDraft(draft, target, context, n - 1);
      var d := DraftOf(draft, context, n - 1);
      var e := d + [draft.next(context + d)];
      forall i | 0 <= i < n ensures e[i] == target.next(context + e[..i]) {
        assert e[..i] == d[..i];
        assert d[..n - 1] == d;
      }
    }
  }

  // The draft decodes the context and each step it drafts, and the target the batch to verify.
  ghost predicate RoundDecodes(target: Model, draft: Model, context: seq<Token>, n: nat) {
    && (forall i :: 0 <= i <= n ==> draft.decodes(context + DraftOf(draft, context, i)))
    && target.decodes(context + DraftOf(draft, context, n))
  }

  // One round up to the acceptance decision: draft, verify in one batch, resolve.
  method Round(target: Model, draft: Model, context: seq<Token>, lookahead: nat)
    returns (r: Result<seq<Token>, Failure>)
    requires |context| > 0
    ensures r == Err(TooLong) <==> |context| + lookahead > target.nBatch
    ensures r == Err(DecodeFailed)
       <==> |context| + lookahead <= target.nBatch && !RoundDecodes(target, draft, context, lookahead)
    ensures r != Err(NoText)
    ensures r.Ok? ==> 1 <= |r.value| <= lookahead + 1 && SaidBy(target, context, r.value)
    ensures r.Ok? && Agree(draft, target) ==> |r.value| == lookahead + 1
  {
    if |context| + lookahead > target.nBatch {
      return Err(TooLong);
    }
    assert context + DraftOf(draft, context, 0) == context;
    if !draft.decodes(context) {
      return Err(DecodeFailed);
    }
    var proposed: seq<Token> := [];
    for i := 0 to lookahead
      invariant |proposed| == i && proposed == DraftOf(draft, context, i)
      invariant forall k :: 0 <= k <= i ==> draft.decodes(context + DraftOf(draft, context, k))
    {
      proposed := proposed + [draft.next(context + proposed)];
      assert proposed == DraftOf(draft, context, i + 1);
      if !draft.decodes(context + proposed) {
        return Err(DecodeFailed);
      }
    }
    if !target.decodes(context + proposed) {
      return Err(DecodeFailed);
    }
    var predictions: seq<Token> := [];
    for i := 0 to lookahead + 1
      invariant |predictions| == i
      invariant forall k :: 0 <= k < i ==> predictions[k] == target.next(context + proposed[..k])
    {
      predictions := predictions + [target.next(context + proposed[..i])];
    }
    var accepted := ResolveAcceptance(proposed, predictions);
    AcceptedIsSaidBy(target, context, proposed, predictions, accepted);
    if Agree(draft, target) {
      AgreeingDraft(draft, target, context, lookahead);
    }
    r := Ok(accepted);
  }

  datatype Absorbed = Continue | HitEnd | Unspeakable

  // The second half of a round: take over the accepted tokens until the end, or until enough were said.
  method Absorb(target: Model, vocab: Vocab, prompt: seq<Token>, nPredict: int,
                tokens0: seq<Token>, ghost pieces0: seq<string>, text0: string, accepted: seq<Token>)
    returns (tokens: seq<Token>, ghost pieces: seq<string>, text: string, outcome: Absorbed)
    requires Saying(target, vocab, prompt, nPredict, tokens0, pieces0) && text0 == Join(pieces0)
    requires SaidBy(target, prompt + tokens0, accepted) && |tokens0| < nPredict
    ensures Saying(target, vocab, prompt, nPredict, tokens, pieces) && text == Join(pieces)
    ensures |tokens0| <= |tokens| <= |tokens0| + |accepted| && |tokens| <= nPredict
    ensures outcome == Continue ==> |tokens| == nPredict || |tokens| == |tokens0| + |accepted|
    ensures outcome == HitEnd ==> |tokens| < nPredict && tokens == Greedy(target, vocab, prompt, nPredict)
    ensures outcome == Unspeakable ==> Unsayable(target, vocab, prompt, nPredict)
  {
    hide Greedy, Saying, Unsayable;
    tokens, pieces, text := tokens0, pieces0, text0;
    var i := 0;
    while i < |accepted| && |tokens| < nPredict
      invariant 0 <= i <= |accepted| && |tokens| <= nPredict
      invariant tokens == tokens0 + accepted[..i]
      invariant Saying(target, vocab, prompt, nPredict, tokens, pieces) && text == Join(pieces)
    {
      var tok := accepted[i];
      assert prompt + tokens == prompt + tokens0 + accepted[..i];
      OneMore(target, vocab, prompt, nPredict, tokens, pieces, tok);
      if vocab.eog(tok) {
        return tokens, pieces, text, HitEnd;
      }
      var piece := vocab.piece(tok);
      if piece.None? {
        NextIsUnsayable(target, vocab, prompt, nPredict, tokens, pieces);
        return tokens, pieces, text, Unspeakable;
      }
      assert accepted[..i + 1] == accepted[..i] + [tok];
      assert (pieces + [piece.value])[..|pieces|] == pieces;
      tokens, pieces, text := tokens + [tok], pieces + [piece.value], text + piece.value;
      i := i + 1;
    }
    outcome := Continue;
  }

  // The most tokens a number of rounds can yield: calls * (lookahead + 1), see YieldIsProduct.
  ghost function Yield(calls: nat, lookahead: nat): nat {
    if calls == 0 then 0 else Yield(calls - 1, lookahead) + lookahead + 1
  }

  lemma {:induction false} YieldIsProduct(calls: nat, lookahead: nat)
    ensures Yield(calls, lookahead) == calls * (lookahead + 1)
  {
    if calls > 0 {
      YieldIsProduct(calls - 1, lookahead);
    }
  }

  // One whole round. The flag tells that the target has ended the answer.
  method SpeculateRound(target: Model, vocab: Vocab, prompt: seq<Token>, nPredict: int, draft: Model, lookahead: nat,
                        tokens0: seq<Token>, ghost pieces0: seq<string>, text0: string)
    returns (r: Result<(seq<Token>, string, bool), Failure>, ghost pieces: seq<string>)
    requires |prompt| > 0 && |tokens0| + lookahead <= nPredict && |tokens0| < nPredict
    requires Saying(target, vocab, prompt, nPredict, tokens0, pieces0) && text0 == Join(pieces0)
    ensures r == Err(TooLong) <==> |prompt| + |tokens0| + lookahead > target.nBatch
    ensures r == Err(DecodeFailed) <==> |prompt| + |tokens0| + lookahead <= target.nBatch
                                        && !RoundDecodes(target, draft, prompt + tokens0, lookahead)
    ensures r == Err(NoText) ==> Unsayable(target, vocab, prompt, nPredict)
    ensures r.Ok? ==> var (tokens, text, ended) := r.value;
              && Saying(target, vocab, prompt, nPredict, tokens, pieces) && text == Join(pieces)
              && |tokens0| <= |tokens| <= |tokens0| + lookahead + 1 && |tokens| <= nPredict
              && (ended ==> |tokens| < nPredict && tokens == Greedy(target, vocab, prompt, nPredict))
              && (!ended ==> |tokens0| < |tokens|)
              && (!ended && Agree(draft, target) ==> |tokens| == nPredict || |tokens| == |tokens0| + lookahead + 1)
  {
    pieces := pieces0;
    var round := Round(target, draft, prompt + tokens0, lookahead);
    if round.Err? {
      return Err(round.error), pieces;
    }
    var tokens, text, outcome;
    tokens, pieces, text, outcome := Absorb(target, vocab, prompt, nPredict, tokens0, pieces0, text0, round.value);
    r := if outcome == Unspeakable then Err(NoText) else Ok((tokens, text, outcome == HitEnd));
  }

  // The least number of rounds that yields `n` tokens.
  ghost predicate ExactRounds(n: nat, calls: nat, lookahead: nat) {
    n <= Yield(calls, lookahead) && (calls == 0 || Yield(calls - 1, lookahead) < n)
  }

  // `target_decode_calls`, and the tokens behind `text`.
  datatype SpeculativeResult = SpeculativeResult(tokens: seq<Token>, text: string, targetDecodeCalls: nat)

  // How far a round looks ahead that starts with so many tokens said.
  function Ahead(nPredict: int, lookahead: nat, start: nat): nat
    requires start < nPredict
  {
    if lookahead <= nPredict - start then lookahead else nPredict - start
  }

  ghost predicate RoundFits(target: Model, prompt: seq<Token>, nPredict: int, lookahead: nat, start: nat)
    requires start < nPredict
  {
    |prompt| + start + Ahead(nPredict, lookahead, start) <= target.nBatch
  }

  // The round that starts with so many tokens of the greedy answer said decodes all its contexts.
  ghost predicate RoundRuns(target: Model, vocab: Vocab, prompt: seq<Token>, nPredict: int, draft: Model,
      lookahead: nat, start: nat)
    requires start < nPredict
  {
    && start <= |Greedy(target, vocab, prompt, nPredict)|
    && RoundDecodes(target, draft, prompt + Greedy(target, vocab, prompt, nPredict)[..start],
                    Ahead(nPredict, lookahead, start))
  }

  ghost predicate RoundsRun(target: Model, vocab: Vocab, prompt: seq<Token>, nPredict: int, draft: Model,
      lookahead: nat, starts: seq<nat>) {
    forall k :: 0 <= k < |starts| ==>
      && starts[k] < nPredict && RoundFits(target, prompt, nPredict, lookahead, starts[k])
      && RoundRuns(target, vocab, prompt, nPredict, draft, lookahead, starts[k])
  }

  lemma {:induction false} OneMoreRuns(target: Model, vocab: Vocab, prompt: seq<Token>, nPredict: int, draft: Model,
      lookahead: nat, starts: seq<nat>, start: nat)
    requires RoundsRun(target, vocab, prompt, nPredict, draft, lookahead, starts)
    ensures (starts + [start])[..|starts|] == starts
    ensures start < nPredict && RoundFits(target, prompt, nPredict, lookahead, start)
            && RoundRuns(target, vocab, prompt, nPredict, draft, lookahead, start)
        ==> RoundsRun(target, vocab, prompt, nPredict, draft, lookahead, starts + [start])
  {
  }

  // `pieces` are the texts of the tokens; `batches` are the sizes of the verified batches, one per target decode call;
  // `starts` tells how many tokens were said when each round started, a failing one included.
  method CompleteSpeculative(target: Model, vocab: Vocab, prompt: seq<Token>, nPredict: int, draft: Model,
      lookahead: nat)
    returns (r: Result<SpeculativeResult, Failure>, ghost pieces: seq<string>, ghost batches: seq<nat>,
             ghost starts: seq<nat>)
    requires |prompt| > 0
    // Meaning: exactly the greedy tokens, and their text.
    ensures r.Ok? ==>
              && r.value.tokens == Greedy(target, vocab, prompt, nPredict)
              && Saying(target, vocab, prompt, nPredict, r.value.tokens, pieces) && r.value.text == Join(pieces)
    // Round trips: never more than one per token and one for the end, never less than the lookahead allows.
    ensures r.Ok? ==> var calls := r.value.targetDecodeCalls;
              && |r.value.tokens| <= Yield(calls, lookahead)
              && calls <= |r.value.tokens| + 1
              && calls <= (if nPredict > 0 then nPredict else 0)
              && |batches| == calls
    ensures forall k :: 0 <= k < |batches| ==> batches[k] <= target.nBatch
    // A draft that agrees with the target, on an answer without early end, needs the least number of rounds.
    ensures r.Ok? && Agree(draft, target) && nPredict >= 0 && |r.value.tokens| == nPredict
            ==> ExactRounds(nPredict, r.value.targetDecodeCalls, lookahead)
    // Within the batch size a context is never refused for its length.
    ensures nPredict >= 0 && |prompt| + nPredict <= target.nBatch ==> r != Err(TooLong)
    // The run ends at the first round that does not fit the batch or does not decode; if there is none, it succeeds
    // unless a token of the greedy answer has no text.
    ensures r.Ok? ==> |starts| == |batches| && RoundsRun(target, vocab, prompt, nPredict, draft, lookahead, starts)
    ensures r.Err? ==> starts != [] && var k := |starts| - 1;
              && starts[k] < nPredict
              && RoundsRun(target, vocab, prompt, nPredict, draft, lookahead, starts[..k])
              && match r.error
                 case TooLong => !RoundFits(target, prompt, nPredict, lookahead, starts[k])
                 case DecodeFailed =>
                   && RoundFits(target, prompt, nPredict, lookahead, starts[k])
                   && !RoundRuns(target, vocab, prompt, nPredict, draft, lookahead, starts[k])
                 case NoText =>
                   && RoundFits(target, prompt, nPredict, lookahead, starts[k])
                   && RoundRuns(target, vocab, prompt, nPredict, draft, lookahead, starts[k])
    ensures r == Err(NoText) ==> Unsayable(target, vocab, prompt, nPredict)
    ensures r.Ok? ==> !Unsayable(target, vocab, prompt, nPredict)
    // Sound models answer every prompt that fits the batch together with its answer.
    ensures Sound(target) && Sound(draft) && AllSpeakable(vocab)
            && nPredict >= 0 && |prompt| + nPredict <= target.nBatch
            ==> r.Ok?
  {
    hide Greedy, Saying, Join, Agree, RoundDecodes, Unsayable, Sound, AllSpeakable, RoundsRun;
    var tokens: seq<Token>, text, calls: nat := [], "", 0;
    NothingSaid(target, vocab, prompt, nPredict);
    pieces, batches, starts := [], [], [];
    BeforeAllRounds(target, vocab, prompt, nPredict, draft);
    while |tokens| < nPredict
      invariant Saying(target, vocab, prompt, nPredict, tokens, pieces) && text == Join(pieces)
      invariant |batches| == calls && forall k :: 0 <= k < calls ==> batches[k] <= target.nBatch
      invariant |starts| == calls && RoundsRun(target, vocab, prompt, nPredict, draft, lookahead, starts)
      invariant calls <= |tokens| <= Yield(calls, lookahead) && |tokens| <= (if nPredict > 0 then nPredict else 0)
      invariant Agree(draft, target) ==> calls == 0 || Yield(calls - 1, lookahead) < nPredict
      invariant Agree(draft, target) && |tokens| < nPredict ==> |tokens| == Yield(calls, lookahead)
    {
      var n := Ahead(nPredict, lookahead, |tokens|);
      var round;
      SaidIsPrefix(target, vocab, prompt, nPredict, tokens, pieces);
      assert Greedy(target, vocab, prompt, nPredict)[..|tokens|] == tokens;
      OneMoreRuns(target, vocab, prompt, nPredict, draft, lookahead, starts, |tokens|);
      starts := starts + [|tokens|];
      round, pieces := SpeculateRound(target, vocab, prompt, nPredict, draft, n, tokens, pieces, text);
      if round.Err? {
        return Err(round.error), pieces, batches, starts;
      }
      batches := batches + [|prompt| + |tokens| + n];
      calls := calls + 1;
      tokens, text := round.value.0, round.value.1;
      if round.value.2 {
        AllHaveText(target, vocab, prompt, nPredict, tokens, pieces);
        return Ok(SpeculativeResult(tokens, text, calls)), pieces, batches, starts;
      }
    }
    SayingIsGreedy(target, vocab, prompt, nPredict, tokens, pieces);
    AllHaveText(target, vocab, prompt, nPredict, tokens, pieces);
    r := Ok(SpeculativeResult(tokens, text, calls));
  }

  lemma {:induction false} AllHaveText(target: Model, vocab: Vocab, prompt: seq<Token>, n: int, said: seq<Token>,
      pieces: seq<string>)
    requires Saying(target, vocab, prompt, n, said, pieces) && said == Greedy(target, vocab, prompt, n)
    ensures !Unsayable(target, vocab, prompt, n)
  {
    SaidHasText(target, vocab, prompt, n, said, pieces);
  }

  lemma {:induction false} BeforeAllRounds(target: Model, vocab: Vocab, prompt: seq<Token>, nPredict: int,
      draft: Model)
    ensures Sound(target) && Sound(draft) ==> forall context, n :: RoundDecodes(target, draft, context, n)
    ensures AllSpeakable(vocab) ==> !Unsayable(target, vocab, prompt, nPredict)
    ensures forall lookahead :: RoundsRun(target, vocab, prompt, nPredict, draft, lookahead, [])
  {
    var greedy := Greedy(target, vocab, prompt, nPredict);
    if AllSpeakable(vocab) {
      forall k | 0 <= k < |greedy| ensures vocab.piece(greedy[k]).Some? {
        var t := greedy[k];
        assert vocab.piece(t).Some?;
      }
    }
  }

  lemma {:induction false} ExactRoundsIsCeiling(n: nat, calls: nat, lookahead: nat)
    requires ExactRounds(n, calls, lookahead)
    ensures calls == (n + lookahead) / (lookahead + 1)
  {
    YieldIsProduct(calls, lookahead);
    QuotientIs(n + lookahead, lookahead + 1, calls);
  }

  lemma {:induction false} QuotientIs(x: nat, k: nat, q: nat)
    requires k > 0 && q * k <= x < q * k + k
    ensures x / k == q
  {
    var d := x / k;
    assert d * k <= x < d * k + k;
    if d < q {
      TimesMono(d + 1, q, k);
    }
    if q < d {
      TimesMono(q + 1, d, k);
    }
  }

  lemma {:induction false} TimesMono(a: nat, b: nat, k: nat)
    requires a <= b
    ensures a * k <= b * k
  {
  }
}
