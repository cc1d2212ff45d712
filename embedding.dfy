/**
  The OpenAI-style embeddings endpoint: the request becomes a one-token
  embedding generation, the handler reads the session's token stream up to
  the first `Embed` event, and answers with a fixed-shape response.
 */
module Embedding {
  import opened Wrappers
  import opened Protocol

  /** `EmbeddingRequest`: the input texts and the layer to read the embedding from. */
  datatype EmbeddingRequest = EmbeddingRequest(input: seq<string>, embedLayer: nat)

  /** `join("")`: the texts one after another, with no separator. */
  function Concat(parts: seq<string>): (r: string)
    ensures r == [] <==> forall k | 0 <= k < |parts| :: parts[k] == []
    ensures forall k | 0 <= k < |parts| :: |parts[k]| <= |r|
  {
    if parts == [] then "" else parts[0] + Concat(parts[1..])
  }

  /** Joining two lists of texts is joining each and putting the results side by side. */
  lemma {:induction false} ConcatAppend(a: seq<string>, b: seq<string>)
    ensures Concat(a + b) == Concat(a) + Concat(b)
  {
    if a == [] {
      assert a + b == b;
    } else {
      assert (a + b)[0] == a[0] && (a + b)[1..] == a[1..] + b;
      ConcatAppend(a[1..], b);
    }
  }

  /** Every input text appears, in order, at the offset the texts before it add up to. */
  lemma {:induction false} ConcatAt(parts: seq<string>, k: nat)
    requires k < |parts|
    ensures var offset := |Concat(parts[..k])|;
      offset + |parts[k]| <= |Concat(parts)| && Concat(parts)[offset..offset + |parts[k]|] == parts[k]
  {
    assert parts == parts[..k] + [parts[k]] + parts[k + 1..];
    ConcatAppend(parts[..k] + [parts[k]], parts[k + 1..]);
    ConcatAppend(parts[..k], [parts[k]]);
    assert Concat([parts[k]]) == parts[k] + Concat([]);
  }

  /**
    `From<EmbeddingRequest> for GenerateRequest`: the joined input as the
    prompt, one token, embedding mode, the requested layer; every other
    field is that of `defaults` (`GenerateRequest::default()`).
   */
  function ToGenerate(request: EmbeddingRequest, defaults: GenerateRequest): (g: GenerateRequest)
    ensures g.prompt == Concat(request.input)
    ensures g.maxTokens == 1 && g.embed
    ensures g.embedLayer == request.embedLayer
    ensures g.stop == defaults.stop && g.sampling == defaults.sampling
  {
    defaults.(prompt := Concat(request.input), maxTokens := 1, embed := true, embedLayer := request.embedLayer)
  }

  /** The position of the first `Embed` event. */
  function FirstEmbed(tokens: seq<Token>): (r: Option<nat>)
    ensures r.Some? ==> r.value < |tokens| && tokens[r.value].Embed?
    ensures r.Some? ==> forall k | 0 <= k < r.value :: !tokens[k].Embed?
    ensures r.None? ==> forall k | 0 <= k < |tokens| :: !tokens[k].Embed?
  {
    if tokens == [] then None
    else if tokens[0].Embed? then Some(0)
    else match FirstEmbed(tokens[1..])
      case None => None
      case Some(i) => Some(i + 1)
  }

  /** The position of the last `Stop` event. */
  function LastStopAt(tokens: seq<Token>): (r: Option<nat>)
    ensures r.Some? ==> r.value < |tokens| && tokens[r.value].Stop?
    ensures r.Some? ==> forall k | r.value < k < |tokens| :: !tokens[k].Stop?
    ensures r.None? ==> forall k | 0 <= k < |tokens| :: !tokens[k].Stop?
  {
    if tokens == [] then None
    else if tokens[|tokens| - 1].Stop? then Some(|tokens| - 1)
    else LastStopAt(tokens[..|tokens| - 1])
  }

  /** The counter of the last `Stop` event, or `initial` when there is none. */
  function LastStop(tokens: seq<Token>, initial: TokenCounter): TokenCounter {
    match LastStopAt(tokens)
    case Some(k) => tokens[k].counter
    case None => initial
  }

  /** What the handler reads of the stream: up to and including the first `Embed`, else all of it. */
  function Read(tokens: seq<Token>): seq<Token> {
    match FirstEmbed(tokens)
    case Some(i) => tokens[..i + 1]
    case None => tokens
  }

  /** The embedding the handler returns: the vector of the first `Embed`, else empty. */
  function EmbeddingOf(tokens: seq<Token>): seq<F32> {
    match FirstEmbed(tokens)
    case Some(i) => tokens[i].vector
    case None => []
  }

  /** The usage the handler returns: the last `Stop` counter before the first `Embed`, else none counted. */
  function UsageOf(tokens: seq<Token>): TokenCounter {
    match FirstEmbed(tokens)
    case Some(i) => LastStop(tokens[..i], NO_TOKENS)
    case None => LastStop(tokens, NO_TOKENS)
  }

  /**
    The `while let` loop of the handler: a `Stop` replaces the counter, the
    first `Embed` gives the embedding and ends the loop, anything else is
    skipped.
   */
  method CollectEmbedding(tokens: seq<Token>) returns (counter: TokenCounter, embedding: seq<F32>)
    ensures embedding == EmbeddingOf(tokens)
    ensures counter == UsageOf(tokens)
  {
    counter := NO_TOKENS;
    embedding := [];
    var i := 0;
    while i < |tokens|
      invariant 0 <= i <= |tokens|
      invariant forall k | 0 <= k < i :: !tokens[k].Embed?
      invariant counter == LastStop(tokens[..i], NO_TOKENS)
      invariant embedding == []
    {
      assert tokens[..i + 1][..i] == tokens[..i];
      match tokens[i] {
        case Stop(_, c) =>
          counter := c;
        case Embed(v) =>
          embedding := v;
          break;
        case _ =>
      }
      i := i + 1;
    }
    assert i == |tokens| ==> tokens[..i] == tokens;
  }

  /** Nothing after the first `Embed` is ever looked at. */
  lemma NeverReadsPastEmbed(prefix: seq<Token>, v: seq<F32>, tail: seq<Token>)
    requires forall k | 0 <= k < |prefix| :: !prefix[k].Embed?
    ensures var tokens := prefix + [Embed(v)] + tail;
      && Read(tokens) == prefix + [Embed(v)]
      && EmbeddingOf(tokens) == v
      && UsageOf(tokens) == LastStop(prefix, NO_TOKENS)
  {
    var tokens := prefix + [Embed(v)] + tail;
    assert tokens[|prefix|] == Embed(v);
    assert tokens[..|prefix|] == prefix;
    assert tokens[..|prefix| + 1] == prefix + [Embed(v)];
  }

  /** Only the events the handler reads decide its result. */
  lemma ReadDecides(tokens: seq<Token>)
    ensures EmbeddingOf(Read(tokens)) == EmbeddingOf(tokens)
    ensures UsageOf(Read(tokens)) == UsageOf(tokens)
  {
    if FirstEmbed(tokens).Some? {
      var i := FirstEmbed(tokens).value;
      assert tokens == tokens[..i] + [tokens[i]] + tokens[i + 1..];
      NeverReadsPastEmbed(tokens[..i], tokens[i].vector, tokens[i + 1..]);
    }
  }

  /** The events that can change the result: `Stop` and `Embed`. */
  predicate Relevant(t: Token) {
    t.Stop? || t.Embed?
  }

  function Keep(tokens: seq<Token>): (r: seq<Token>)
    ensures forall k | 0 <= k < |r| :: Relevant(r[k])
  {
    if tokens == [] then []
    else if Relevant(tokens[0]) then [tokens[0]] + Keep(tokens[1..])
    else Keep(tokens[1..])
  }

  /** The folding step of the loop, as a function: the state is the counter and the embedding, if found. */
  function Fold(tokens: seq<Token>, counter: TokenCounter): (r: (TokenCounter, Option<seq<F32>>))
    ensures r.1.Some? <==> exists k | 0 <= k < |tokens| :: tokens[k].Embed?
    ensures r.1.Some? ==> exists k | 0 <= k < |tokens| :: tokens[k] == Embed(r.1.value)
    ensures r.0 == counter || exists k | 0 <= k < |tokens| :: tokens[k].Stop? && tokens[k].counter == r.0
  {
    if tokens == [] then (counter, None)
    else match tokens[0]
      case Stop(_, c) => Fold(tokens[1..], c)
      case Embed(v) => (counter, Some(v))
      case _ => Fold(tokens[1..], counter)
  }

  /** `Content` and `Error` events never change the fold. */
  lemma {:induction false} FoldIgnoresOthers(tokens: seq<Token>, counter: TokenCounter)
    ensures Fold(Keep(tokens), counter) == Fold(tokens, counter)
  {
    if tokens != [] {
      FoldIgnoresOthers(tokens[1..], counter);
      if tokens[0].Stop? {
        FoldIgnoresOthers(tokens[1..], tokens[0].counter);
      }
    }
  }

  /** Dropping the `Content` and `Error` events changes neither the usage nor the embedding the handler reports. */
  lemma KeepKeepsResult(tokens: seq<Token>)
    ensures UsageOf(Keep(tokens)) == UsageOf(tokens) && EmbeddingOf(Keep(tokens)) == EmbeddingOf(tokens)
  {
    FoldGivesResult(tokens);
    FoldGivesResult(Keep(tokens));
    FoldIgnoresOthers(tokens, NO_TOKENS);
  }

  /** The fold from the front agrees with the first-`Embed` / last-`Stop` description. */
  lemma {:induction false} FoldMatches(prefix: seq<Token>, tokens: seq<Token>)
    requires forall k | 0 <= k < |prefix| :: !prefix[k].Embed?
    ensures Fold(tokens, LastStop(prefix, NO_TOKENS)) ==
      (UsageOf(prefix + tokens), if FirstEmbed(tokens).Some? then Some(EmbeddingOf(tokens)) else None)
    decreases |tokens|
  {
    if tokens == [] {
      assert prefix + tokens == prefix;
    } else {
      var next := prefix + [tokens[0]];
      assert prefix + tokens == next + tokens[1..];
      assert next[..|prefix|] == prefix;
      if tokens[0].Embed? {
        NeverReadsPastEmbed(prefix, tokens[0].vector, tokens[1..]);
      } else {
        assert LastStop(next, NO_TOKENS) == if tokens[0].Stop? then tokens[0].counter else LastStop(prefix, NO_TOKENS);
        FoldMatches(next, tokens[1..]);
        FirstEmbedShift(tokens);
      }
    }
  }

  /** Folding the whole stream from an empty counter gives what the handler returns. */
  lemma FoldGivesResult(tokens: seq<Token>)
    ensures Fold(tokens, NO_TOKENS).0 == UsageOf(tokens)
    ensures Fold(tokens, NO_TOKENS).1 == if FirstEmbed(tokens).Some? then Some(EmbeddingOf(tokens)) else None
  {
    FoldMatches([], tokens);
    assert [] + tokens == tokens;
  }

  /** Skipping a first event that is not `Embed` shifts the first `Embed` by one. */
  lemma FirstEmbedShift(tokens: seq<Token>)
    requires tokens != [] && !tokens[0].Embed?
    ensures EmbeddingOf(tokens[1..]) == EmbeddingOf(tokens)
    ensures FirstEmbed(tokens[1..]).Some? == FirstEmbed(tokens).Some?
  {
  }

  /** Without any `Embed` event the embedding is empty: the stream ran out first. */
  lemma NoEmbedMeansEmpty(tokens: seq<Token>)
    requires forall k | 0 <= k < |tokens| :: !tokens[k].Embed?
    ensures EmbeddingOf(tokens) == [] && UsageOf(tokens) == LastStop(tokens, NO_TOKENS)
  {
  }

  /** `EmbeddingData`; `kind` is the field named `object` on the wire. */
  datatype EmbeddingData = EmbeddingData(kind: string, index: nat, embedding: seq<F32>)

  /** `EmbeddingResponse`; `kind` is the wire's `object`, and `usage` is the counter renamed on the wire. */
  datatype EmbeddingResponse = EmbeddingResponse(kind: string, model: string, data: seq<EmbeddingData>, usage: TokenCounter)

  /** The response: a one-item list holding the embedding at index 0. */
  function Respond(model: string, embedding: seq<F32>, usage: TokenCounter): (r: EmbeddingResponse)
    ensures r.kind == "list" && r.model == model && r.usage == usage
    ensures |r.data| == 1 && r.data[0] == EmbeddingData("embedding", 0, embedding)
  {
    EmbeddingResponse("list", model, [EmbeddingData("embedding", 0, embedding)], usage)
  }

  /**
    `embeddings`: `request_info` first queues a `QueryInfo` on a fresh reply
    channel, and `info` is the snapshot it got back; `tokens` are the events
    the worker sends on the new token channel. Then one `Generate` goes onto
    the queue, and the response reports the model path of the snapshot.
   */
  method Embeddings(sender: CommandQueue, info: RuntimeInfo, request: EmbeddingRequest,
                    defaults: GenerateRequest, tokens: seq<Token>)
    returns (response: EmbeddingResponse)
    requires sender.Valid()
    modifies sender
    ensures sender.Valid()
    ensures sender.channels == old(sender.channels) + 2
    ensures sender.sent == old(sender.sent) +
      [QueryInfo(old(sender.channels)), Generate(ToGenerate(request, defaults), info.tokenizer, old(sender.channels) + 1)]
    ensures response == Respond(info.reload.modelPath, EmbeddingOf(tokens), UsageOf(tokens))
  {
    var infoChannel := sender.NewChannel();
    sender.Send(QueryInfo(infoChannel));
    var modelName := info.reload.modelPath;
    var channel := sender.NewChannel();
    sender.Send(Generate(ToGenerate(request, defaults), info.tokenizer, channel));
    var counter, embedding := CollectEmbedding(tokens);
    response := Respond(modelName, embedding, counter);
  }
}
