/** Embedding providers and the batched embedding of chunks
    (apps/server/internal/knowledge/biz/embedding.go). Vectors hold reals
    in place of float32; the remote embedding endpoint, and the SHA-256
    seeded random draws of the fake provider, are parameters. */
module Embedding {
  import opened Wrappers
  import opened Text
  import opened Chunking

  const DefaultEmbeddingModel := "text-embedding-3-small"
  const DefaultEmbeddingDim := 0
  const DefaultBatchSize := 64

  const EndpointMissing := InternalServer("EMBEDDING_ENDPOINT_MISSING")
  const RequestFailed := InternalServer("EMBEDDING_REQUEST_FAILED")
  const CountMismatch := InternalServer("EMBEDDING_COUNT_MISMATCH")

  type Vector = seq<real>

  datatype EmbeddedChunk = EmbeddedChunk(chunk: DocChunk, vector: Vector)

  /** The embedding part of ingestionOptions. */
  datatype EmbeddingOptions = EmbeddingOptions(provider: string, endpoint: string, apiKey: string,
                                               model: string, dim: int, timeoutMs: int)

  /** The two providers: the deterministic fake one and the OpenAI-style
      HTTP one. */
  datatype Provider =
    | FakeProvider(model: string, dim: int)
    | HttpProvider(endpoint: string, apiKey: string, model: string, dim: int, timeoutMs: int)

  /** Model(): the provider's configured model, or the default when unset. */
  function Model(p: Provider): (m: string)
    ensures m != ""
    ensures p.model != "" ==> m == p.model
    ensures p.model == "" ==> m == DefaultEmbeddingModel
  {
    if p.model == "" then DefaultEmbeddingModel else p.model
  }

  /** Dim(): the provider's configured dimension, or the default when not
      positive. */
  function Dim(p: Provider): (d: int)
    ensures d >= 0
    ensures p.dim > 0 ==> d == p.dim
    ensures p.dim <= 0 ==> d == DefaultEmbeddingDim
  {
    if p.dim <= 0 then DefaultEmbeddingDim else p.dim
  }

  predicate IsSlash(c: char) { c == '/' }

  /** newEmbeddingProvider: `openai`/`http` with a non-blank endpoint give
      the HTTP provider, with trailing slashes cut from the endpoint; every
      other name (empty, `fake`, unknown) and a blank endpoint give the
      fake provider. */
  function NewEmbeddingProvider(opts: EmbeddingOptions): (p: Provider)
    ensures p.model == opts.model && p.dim == opts.dim
    ensures p.HttpProvider? <==>
      (Lower(TrimSpace(opts.provider)) == "openai" || Lower(TrimSpace(opts.provider)) == "http") &&
      TrimSpace(opts.endpoint) != ""
    ensures p.HttpProvider? ==>
      p.apiKey == opts.apiKey && p.timeoutMs == opts.timeoutMs &&
      HasPrefix(TrimSpace(opts.endpoint), p.endpoint) &&
      (p.endpoint == "" || p.endpoint[|p.endpoint| - 1] != '/')
  {
    var name := Lower(TrimSpace(opts.provider));
    if name == "openai" || name == "http" then
      var endpoint := TrimSpace(opts.endpoint);
      if endpoint == "" then FakeProvider(opts.model, opts.dim)
      else HttpProvider(TrimRightBy(endpoint, IsSlash), opts.apiKey, opts.model, opts.dim, opts.timeoutMs)
    else FakeProvider(opts.model, opts.dim)
  }

  /** deterministicEmbedding: `dim` draws of the generator seeded from the
      text, each mapped from [0, 1) to [-1, 1); nothing for a dimension
      that is not positive. `draw(s, i)` is the i-th draw for text s. */
  function DeterministicEmbedding(s: string, dim: int, draw: (string, nat) -> real): (v: Vector)
    ensures dim <= 0 ==> v == []
    ensures dim > 0 ==> |v| == dim
  {
    if dim <= 0 then [] else seq(dim, (i: nat) => draw(s, i) * 2.0 - 1.0)
  }

  /** Draws in [0, 1) give coordinates in [-1, 1). */
  lemma DeterministicEmbeddingRange(s: string, dim: int, draw: (string, nat) -> real)
    requires forall t, i :: 0.0 <= draw(t, i) < 1.0
    ensures forall i :: 0 <= i < |DeterministicEmbedding(s, dim, draw)| ==>
      -1.0 <= DeterministicEmbedding(s, dim, draw)[i] < 1.0
  {
    var v := DeterministicEmbedding(s, dim, draw);
    forall i | 0 <= i < |v|
      ensures -1.0 <= v[i] < 1.0
    {
      assert v[i] == draw(s, i) * 2.0 - 1.0;
      assert 0.0 <= draw(s, i) < 1.0;
    }
  }

  /** The URL the HTTP provider posts to: `/embeddings` is appended unless
      the endpoint already ends with it. */
  function EmbeddingsUrl(endpoint: string): (url: string)
    ensures HasSuffix(url, "/embeddings")
    ensures HasSuffix(endpoint, "/embeddings") ==> url == endpoint
    ensures !HasSuffix(endpoint, "/embeddings") ==> url == endpoint + "/embeddings"
  {
    if HasSuffix(endpoint, "/embeddings") then endpoint
    else
      var url := endpoint + "/embeddings";
      assert url[|url| - |"/embeddings"|..] == "/embeddings";
      url
  }

  /** The request the HTTP provider sends: URL, bearer header (when a key is
      set), model and inputs. */
  datatype EmbeddingRequest = EmbeddingRequest(url: string, authorization: Option<string>, model: string, inputs: seq<string>)

  /** What came back over the network: a status code and the decoded body. */
  datatype HttpReply = HttpReply(status: int, decoded: Result<seq<Vector>>)

  /** A transport to the embedding endpoint: a transport error, or a reply. */
  type Remote = EmbeddingRequest -> Result<HttpReply>

  function RequestFor(p: Provider, inputs: seq<string>): (req: EmbeddingRequest)
    requires p.HttpProvider?
    ensures req.url == EmbeddingsUrl(p.endpoint) && req.model == Model(p) && req.inputs == inputs
    ensures req.authorization.Some? <==> p.apiKey != ""
    ensures req.authorization.Some? ==> req.authorization.value == "Bearer " + p.apiKey
  {
    EmbeddingRequest(EmbeddingsUrl(p.endpoint), if p.apiKey != "" then Some("Bearer " + p.apiKey) else None, Model(p), inputs)
  }

  /** Embed of either provider, with the provider as it is afterwards. The
      fake one gives one deterministic vector per input; the HTTP one fails
      without an endpoint, on a transport error, on a non-2xx status or an
      undecodable body, and learns its dimension from the first vector when
      it had none. */
  function Embed(p: Provider, inputs: seq<string>, remote: Remote, draw: (string, nat) -> real): (r: (Result<seq<Vector>>, Provider))
    ensures p.FakeProvider? ==> r.1 == p && r.0.Ok? && |r.0.value| == |inputs|
    ensures p.FakeProvider? ==> forall i :: 0 <= i < |inputs| ==> r.0.value[i] == DeterministicEmbedding(inputs[i], p.dim, draw)
    ensures r.1 == p || (p.HttpProvider? && p.dim <= 0 && r.1 == p.(dim := r.1.dim))
    ensures p.HttpProvider? && p.endpoint == "" ==> r == (Fail(EndpointMissing), p)
    ensures p.HttpProvider? && p.endpoint != "" ==>
      var reply := remote(RequestFor(p, inputs));
      (reply.Fail? ==> r == (Fail(reply.error), p)) &&
      (reply.Ok? && !(200 <= reply.value.status < 300) ==> r == (Fail(RequestFailed), p)) &&
      (reply.Ok? && 200 <= reply.value.status < 300 ==> r.0 == reply.value.decoded)
    ensures r.0.Ok? && |r.0.value| > 0 && p.HttpProvider? && p.dim <= 0 ==> r.1.dim == |r.0.value[0]|
    ensures r.0.Fail? ==> r.1 == p
  {
    match p
    case FakeProvider(_, dim) =>
      (Ok(seq(|inputs|, i requires 0 <= i < |inputs| => DeterministicEmbedding(inputs[i], dim, draw))), p)
    case HttpProvider(endpoint, _, _, dim, _) =>
      if endpoint == "" then (Fail(EndpointMissing), p)
      else
        var reply := remote(RequestFor(p, inputs));
        if reply.Fail? then (Fail(reply.error), p)
        else if !(200 <= reply.value.status < 300) then (Fail(RequestFailed), p)
        else if reply.value.decoded.Fail? then (reply.value.decoded, p)
        else
          var out := reply.value.decoded.value;
          (Ok(out), if |out| > 0 && dim <= 0 then p.(dim := |out[0]|) else p)
  }

  // ------------------------------------------------------------ embedChunks

  function Contents(chunks: seq<DocChunk>): (texts: seq<string>)
    ensures |texts| == |chunks|
    ensures forall i :: 0 <= i < |chunks| ==> texts[i] == chunks[i].content
  {
    seq(|chunks|, i requires 0 <= i < |chunks| => chunks[i].content)
  }

  function Concat(batches: seq<seq<string>>): seq<string>
    decreases |batches|
  {
    if batches == [] then [] else batches[0] + Concat(batches[1..])
  }

  /** Chunks paired with vectors, position by position. */
  function Pair(chunks: seq<DocChunk>, vectors: seq<Vector>): (r: seq<EmbeddedChunk>)
    requires |vectors| == |chunks|
    ensures |r| == |chunks|
    ensures forall i :: 0 <= i < |r| ==> r[i] == EmbeddedChunk(chunks[i], vectors[i])
  {
    seq(|chunks|, i requires 0 <= i < |chunks| => EmbeddedChunk(chunks[i], vectors[i]))
  }

  /** An embedding run: its outcome, the provider afterwards, and the
      inputs of every call made to the provider, in order. */
  datatype Run = Run(result: Result<seq<EmbeddedChunk>>, provider: Provider, calls: seq<seq<string>>)

  /** The batch loop of embedChunks from chunk `start` on: each batch of at
      most `size` contents is embedded in one call; an error, or a reply
      whose length differs from the batch, ends the run. */
  function EmbedFrom(p: Provider, chunks: seq<DocChunk>, start: int, size: int, remote: Remote, draw: (string, nat) -> real): (r: Run)
    requires 0 <= start <= |chunks| && size > 0
    ensures r.result.Ok? ==> |r.result.value| == |chunks| - start
    ensures r.result.Ok? ==> forall i :: 0 <= i < |r.result.value| ==> r.result.value[i].chunk == chunks[start + i]
    ensures forall k :: 0 <= k < |r.calls| ==> 0 < |r.calls[k]| <= size
    ensures Concat(r.calls) <= Contents(chunks[start..])
    ensures r.result.Ok? ==> Concat(r.calls) == Contents(chunks[start..])
    decreases |chunks| - start
  {
    if start == |chunks| then Run(Ok([]), p, [])
    else
      var end := if start + size > |chunks| then |chunks| else start + size;
      var texts := Contents(chunks[start..end]);
      var (vectors, p1) := Embed(p, texts, remote, draw);
      if vectors.Fail? then Run(Fail(vectors.error), p1, [texts])
      else if |vectors.value| != |texts| then Run(Fail(CountMismatch), p1, [texts])
      else
        var rest := EmbedFrom(p1, chunks, end, size, remote, draw);
        ContentsSplit(chunks, start, end);
        Run(if rest.result.Ok? then Ok(Pair(chunks[start..end], vectors.value) + rest.result.value) else rest.result,
            rest.provider, [texts] + rest.calls)
  }

  lemma ContentsSplit(chunks: seq<DocChunk>, start: int, end: int)
    requires 0 <= start <= end <= |chunks|
    ensures Contents(chunks[start..]) == Contents(chunks[start..end]) + Contents(chunks[end..])
  {
    assert chunks[start..] == chunks[start..end] + chunks[end..];
  }

  /** The effective batch size: 64 unless a positive size is configured. */
  function BatchSize(configured: int): (size: int)
    ensures size > 0
    ensures configured > 0 ==> size == configured
    ensures configured <= 0 ==> size == DefaultBatchSize
  {
    if configured <= 0 then DefaultBatchSize else configured
  }

  /** embedChunks, with the use case's embedder before and after: nothing
      to embed returns at once and leaves a missing embedder missing;
      otherwise a missing embedder becomes the fake provider with the
      default model and dimension. */
  function EmbedChunks(embedder: Option<Provider>, chunks: seq<DocChunk>, batchSize: int,
                       remote: Remote, draw: (string, nat) -> real): (r: (Run, Option<Provider>))
    ensures chunks == [] ==> r == (Run(Ok([]), embedder.GetOr(FakeProvider(DefaultEmbeddingModel, DefaultEmbeddingDim)), []), embedder)
    ensures chunks != [] ==> r.1 == Some(r.0.provider)
    ensures r.0.result.Ok? ==> |r.0.result.value| == |chunks|
    ensures r.0.result.Ok? ==> forall i :: 0 <= i < |chunks| ==> r.0.result.value[i].chunk == chunks[i]
    ensures forall k :: 0 <= k < |r.0.calls| ==> 0 < |r.0.calls[k]| <= BatchSize(batchSize)
    ensures r.0.result.Ok? ==> Concat(r.0.calls) == Contents(chunks)
  {
    var p := embedder.GetOr(FakeProvider(DefaultEmbeddingModel, DefaultEmbeddingDim));
    if chunks == [] then (Run(Ok([]), p, []), embedder)
    else
      var run := EmbedFrom(p, chunks, 0, BatchSize(batchSize), remote, draw);
      assert chunks[0..] == chunks;
      (run, Some(run.provider))
  }

  /** With the fake provider every batch succeeds: embedding never fails and
      each chunk gets the deterministic vector of its content. */
  lemma {:induction false} FakeEmbedFrom(model: string, dim: int, chunks: seq<DocChunk>, start: int, size: int,
                                         remote: Remote, draw: (string, nat) -> real)
    requires 0 <= start <= |chunks| && size > 0
    ensures var r := EmbedFrom(FakeProvider(model, dim), chunks, start, size, remote, draw);
      r.result.Ok? && r.provider == FakeProvider(model, dim) &&
      forall i :: 0 <= i < |r.result.value| ==>
        r.result.value[i].vector == DeterministicEmbedding(chunks[start + i].content, dim, draw)
    decreases |chunks| - start
  {
    if start < |chunks| {
      var end := if start + size > |chunks| then |chunks| else start + size;
      FakeEmbedFrom(model, dim, chunks, end, size, remote, draw);
    }
  }

  /** A run that resumes after `done` has been embedded and `calls` made. */
  function Resume(done: seq<EmbeddedChunk>, calls: seq<seq<string>>, rest: Run): Run {
    Run(if rest.result.Ok? then Ok(done + rest.result.value) else rest.result, rest.provider, calls + rest.calls)
  }

  /** One batch of the loop, from `start`, in terms of the rest of the
      run. */
  lemma EmbedFromStep(p: Provider, chunks: seq<DocChunk>, start: int, size: int, remote: Remote, draw: (string, nat) -> real,
                      done: seq<EmbeddedChunk>, calls: seq<seq<string>>)
    requires 0 <= start < |chunks| && size > 0
    ensures var end := if start + size > |chunks| then |chunks| else start + size;
      var texts := Contents(chunks[start..end]);
      var e := Embed(p, texts, remote, draw);
      var here := Resume(done, calls, EmbedFrom(p, chunks, start, size, remote, draw));
      (e.0.Fail? ==> here == Run(Fail(e.0.error), e.1, calls + [texts])) &&
      (e.0.Ok? && |e.0.value| != |texts| ==> here == Run(Fail(CountMismatch), e.1, calls + [texts])) &&
      (e.0.Ok? && |e.0.value| == |texts| ==>
         here == Resume(done + Pair(chunks[start..end], e.0.value), calls + [texts], EmbedFrom(e.1, chunks, end, size, remote, draw)))
  {
    var end := if start + size > |chunks| then |chunks| else start + size;
    var texts := Contents(chunks[start..end]);
    var e := Embed(p, texts, remote, draw);
    if e.0.Ok? && |e.0.value| == |texts| {
      var rest := EmbedFrom(e.1, chunks, end, size, remote, draw);
      assert calls + ([texts] + rest.calls) == (calls + [texts]) + rest.calls;
      if rest.result.Ok? {
        var pair := Pair(chunks[start..end], e.0.value);
        assert done + (pair + rest.result.value) == (done + pair) + rest.result.value;
      }
    }
  }
}
