/** The answering pipeline (apps/server/internal/rag/biz): a request runs
    through init, resolve, embed, retrieve, chunks, rerank, assess, prompt
    and llm steps over one shared context, and the response is built from
    what the context holds at the end. The first step that fails ends the
    run with its error; once the context is marked as refusing, the
    remaining steps (except assess) leave it alone. */
module Pipeline {
  import opened Wrappers
  import opened Text
  import opened Scoring
  import opened Prompt
  import opened Rerank
  import opened RagHelpers
  import QueryNormalize

  // ---------------------------------------------------------------------
  // Entities

  datatype MessageRequest = MessageRequest(sessionId: string, botId: string, message: string, topK: int, threshold: real)

  datatype Reference = Reference(documentId: string, documentVersionId: string, chunkId: string,
                                 score: real, rank: int, snippet: string)

  datatype MessageResponse = MessageResponse(reply: string, confidence: real, references: seq<Reference>)

  datatype BotKnowledgeBase = BotKnowledgeBase(kbId: string, priority: int, weight: real)

  datatype VectorSearchRequest = VectorSearchRequest(vector: seq<real>, kbId: string, topK: int, scoreThreshold: real)

  datatype LlmRequest = LlmRequest(system: string, prompt: string, temperature: real, maxTokens: int)

  /** The options the steps read. */
  datatype Options = Options(topK: int, scoreThreshold: real, llmTimeoutMs: int, rerankWeight: real,
                             systemPrompt: string, llmTemperature: real, llmMaxTokens: int,
                             refusalMessage: string)

  const DefaultRefusal := "I don't have enough information to answer that based on the provided knowledge."
  const DefaultSystemPrompt := "You are a helpful assistant. Answer using the provided context. If the context is insufficient, say you don't know."

  /** The options when nothing is configured. */
  const DefaultOptions := Options(5, 0.2, 15000, 0.3, DefaultSystemPrompt, 0.2, 512, DefaultRefusal)

  /** What the repositories and providers answer: the knowledge bases bound
      to a bot, the embeddings of the queries, the hits of one vector
      search, the chunks with given ids, the LLM's model name, its answer
      to the cross-encoder prompt (None when that call fails), the JSON
      decoder for that answer, its answer to the final prompt, and the
      time left before the request's deadline (None for no deadline). */
  datatype Services = Services(
    resolve: string -> Result<seq<BotKnowledgeBase>>,
    embed: seq<string> -> Result<seq<seq<real>>>,
    search: VectorSearchRequest -> Result<seq<SearchResult>>,
    load: seq<string> -> Result<map<string, ChunkMeta>>,
    llmModel: string,
    crossReply: Option<string>,
    decode: string -> Option<seq<string>>,
    generate: LlmRequest -> Result<string>,
    remainingNs: Option<int>)

  /** ragContext: what the steps hand on to each other. */
  datatype State = State(
    req: MessageRequest, topK: int, threshold: real, kbs: seq<BotKnowledgeBase>,
    queryVector: seq<real>, queryVectors: seq<seq<real>>, queryWeights: seq<real>,
    normalized: string, queries: seq<string>, ranked: seq<ScoredChunk>,
    chunks: map<string, ChunkMeta>, prompt: string, reply: string,
    confidence: real, shouldRefuse: bool)

  // ---------------------------------------------------------------------
  // init

  /** The query retrieval runs on: the normalised message, or the trimmed
      message when normalising leaves nothing. */
  function QueryOf(message: string): string {
    var n := QueryNormalize.NormalizeQuery(message);
    if n == "" then TrimSpace(message) else n
  }

  /** A non-blank message gives a non-blank, trimmed query. */
  lemma QueryOfShape(message: string)
    requires TrimSpace(message) != ""
    ensures QueryOf(message) != "" && TrimSpace(QueryOf(message)) == QueryOf(message)
  {
    var n := QueryNormalize.NormalizeQuery(message);
    QueryNormalize.NormalizeShape(message);
    if n == "" {
      TrimSpaceIdempotent(message);
    } else {
      assert IsWordChar(n[0]) && IsWordChar(n[|n| - 1]);
      TrimSpaceUntouched(n);
    }
  }

  /** De-duplicating a single trimmed, non-blank query keeps it. */
  lemma DedupeSingle(q: string)
    requires q != "" && TrimSpace(q) == q
    ensures DedupeQueries([q]) == [q]
  {
    assert [q][1..] == [];
    assert DedupeFrom([q], {}) == [q] + DedupeFrom([], {Lower(q)});
  }

  /** initContext: the bot id and message are trimmed and required; a
      missing top-k or threshold takes the configured one; the single
      query is the normalised message with weight 1. */
  function InitContext(opts: Options, req: MessageRequest): (r: Result<State>)
    ensures TrimSpace(req.botId) == "" ==> r == Fail(BadRequest("BOT_ID_MISSING"))
    ensures TrimSpace(req.botId) != "" && TrimSpace(req.message) == "" ==> r == Fail(BadRequest("MESSAGE_MISSING"))
    ensures r.Ok? <==> TrimSpace(req.botId) != "" && TrimSpace(req.message) != ""
    ensures r.Ok? ==>
      var s := r.value;
      && s.req.botId == TrimSpace(req.botId) && s.req.message == TrimSpace(req.message)
      && (req.topK > 0 ==> s.topK == req.topK) && (opts.topK > 0 ==> s.topK > 0)
      && (req.threshold > 0.0 ==> s.threshold == req.threshold)
      && s.normalized != "" && TrimSpace(s.normalized) == s.normalized
      && s.queries == [s.normalized] && s.queryWeights == [1.0]
      && s.kbs == [] && s.queryVectors == [] && s.ranked == [] && s.chunks == map[]
      && s.reply == "" && s.confidence == 0.0 && !s.shouldRefuse
  {
    var botId := TrimSpace(req.botId);
    var message := TrimSpace(req.message);
    if botId == "" then Fail(BadRequest("BOT_ID_MISSING"))
    else if message == "" then Fail(BadRequest("MESSAGE_MISSING"))
    else
      var topK := if req.topK <= 0 then opts.topK else req.topK;
      var threshold := if req.threshold <= 0.0 then opts.scoreThreshold else req.threshold;
      var normalized := QueryOf(message);
      TrimSpaceIdempotent(req.message);
      QueryOfShape(message);
      var queries := DedupeQueries([normalized]);
      DedupeSingle(normalized);
      var weights := seq(|queries|, i requires 0 <= i < |queries| => AlignedWeight([1.0], i));
      assert weights == [1.0];
      Ok(State(req.(botId := botId, message := message), topK, threshold, [], [], [], weights,
               normalized, queries, [], map[], "", "", 0.0, false))
  }

  // ---------------------------------------------------------------------
  // resolve and embed

  /** resolveContext: the bot's knowledge bases; none means refusing. */
  function ResolveContext(s: State, resolve: string -> Result<seq<BotKnowledgeBase>>): (r: Result<State>)
    ensures s.shouldRefuse ==> r == Ok(s)
    ensures r.Fail? <==> !s.shouldRefuse && resolve(s.req.botId).Fail?
    ensures !s.shouldRefuse && r.Ok? ==> r.value.kbs == resolve(s.req.botId).value && (r.value.shouldRefuse <==> r.value.kbs == [])
  {
    if s.shouldRefuse then Ok(s)
    else
      match resolve(s.req.botId)
      case Fail(e) => Fail(e)
      case Ok(kbs) => Ok(s.(kbs := kbs, shouldRefuse := kbs == []))
  }

  /** embedContext: one vector per query, the first one kept apart. */
  function EmbedContext(s: State, embed: seq<string> -> Result<seq<seq<real>>>): (r: Result<State>)
    ensures s.shouldRefuse ==> r == Ok(s)
    ensures !s.shouldRefuse && embed(s.queries).Ok? && embed(s.queries).value == [] ==>
      r == Fail(InternalServer("EMBEDDING_EMPTY"))
    ensures !s.shouldRefuse && embed(s.queries).Ok? && embed(s.queries).value != [] && |embed(s.queries).value| != |s.queries| ==>
      r == Fail(InternalServer("EMBEDDING_COUNT_MISMATCH"))
    ensures !s.shouldRefuse && r.Ok? ==>
      |r.value.queryVectors| == |s.queries| > 0 && r.value.queryVector == r.value.queryVectors[0]
      && r.value == s.(queryVector := r.value.queryVector, queryVectors := r.value.queryVectors)
  {
    if s.shouldRefuse then Ok(s)
    else
      match embed(s.queries)
      case Fail(e) => Fail(e)
      case Ok(vecs) =>
        if |vecs| == 0 then Fail(InternalServer("EMBEDDING_EMPTY"))
        else if |vecs| != |s.queries| then Fail(InternalServer("EMBEDDING_COUNT_MISMATCH"))
        else Ok(s.(queryVector := vecs[0], queryVectors := vecs))
  }

  // ---------------------------------------------------------------------
  // retrieve

  /** What the searches gathered: the weighted hits, the number of failed
      searches and the first error. */
  datatype Gathered = Gathered(scored: seq<ScoredChunk>, errCount: nat, firstErr: Option<Error>)

  const NothingGathered := Gathered([], 0, None)

  /** A knowledge base's weight; a weight at or below 0 counts as 1. */
  function KbWeight(kb: BotKnowledgeBase): (w: real)
    ensures w > 0.0
    ensures kb.weight > 0.0 ==> w == kb.weight
  {
    if kb.weight <= 0.0 then 1.0 else kb.weight
  }

  /** The weight of the query at index q; 1 beyond the given weights. */
  function QueryWeight(weights: seq<real>, q: nat): real {
    if q < |weights| then weights[q] else 1.0
  }

  /** Hits gathered so far have their vector score as score and no text
      score, and reach the minimum score when there is a positive one. */
  predicate WellScored(scored: seq<ScoredChunk>, minScore: real) {
    forall i :: 0 <= i < |scored| ==>
      && scored[i].score == scored[i].vectorScore && scored[i].textScore == 0.0
      && (minScore > 0.0 ==> scored[i].result.score >= minScore)
  }

  /** The hits one search adds: those at or above a positive minimum
      score, each scored by its vector score times both weights. */
  function Hits(results: seq<SearchResult>, minScore: real, kbWeight: real, qWeight: real): (hits: seq<ScoredChunk>)
    decreases |results|
  {
    if results == [] then []
    else HitOf(results[0], minScore, kbWeight, qWeight) + Hits(results[1..], minScore, kbWeight, qWeight)
  }

  /** The hit one search result gives, if the minimum score keeps it. */
  function HitOf(item: SearchResult, minScore: real, kbWeight: real, qWeight: real): seq<ScoredChunk> {
    var score := Weighted(item.score, kbWeight, qWeight);
    if minScore > 0.0 && item.score < minScore then [] else [ScoredChunk(item, score, 0.0, score)]
  }

  /** A vector score times the knowledge base's and the query's weight. */
  function Weighted(score: real, kbWeight: real, qWeight: real): real {
    score * kbWeight * qWeight
  }

  /** Each hit is a search result kept by the minimum score and weighted;
      nothing is dropped without a positive minimum score. */
  lemma {:induction false} HitsSound(results: seq<SearchResult>, minScore: real, kbWeight: real, qWeight: real)
    ensures var hits := Hits(results, minScore, kbWeight, qWeight);
      && |hits| <= |results|
      && (minScore <= 0.0 ==> |hits| == |results|)
      && WellScored(hits, minScore)
      && (forall i :: 0 <= i < |hits| ==>
            hits[i].result in results && hits[i].score == Weighted(hits[i].result.score, kbWeight, qWeight))
    decreases |results|
  {
    if results != [] {
      var item := results[0];
      var tail := results[1..];
      HitsSound(tail, minScore, kbWeight, qWeight);
      var rest := Hits(tail, minScore, kbWeight, qWeight);
      var head := HitOf(item, minScore, kbWeight, qWeight);
      var hits := head + rest;
      assert Hits(results, minScore, kbWeight, qWeight) == hits;
      forall i | 0 <= i < |hits|
        ensures hits[i].score == hits[i].vectorScore && hits[i].textScore == 0.0
        ensures minScore > 0.0 ==> hits[i].result.score >= minScore
        ensures hits[i].result in results && hits[i].score == Weighted(hits[i].result.score, kbWeight, qWeight)
      {
        if i >= |head| {
          assert hits[i] == rest[i - |head|];
          assert rest[i - |head|].result in tail;
        }
      }
    }
  }

  /** Every result the minimum score keeps is a hit. */
  lemma {:induction false} HitsComplete(results: seq<SearchResult>, minScore: real, kbWeight: real, qWeight: real, x: SearchResult)
    requires x in results && !(minScore > 0.0 && x.score < minScore)
    ensures exists i :: 0 <= i < |Hits(results, minScore, kbWeight, qWeight)| && Hits(results, minScore, kbWeight, qWeight)[i].result == x
    decreases |results|
  {
    var item := results[0];
    var tail := results[1..];
    var rest := Hits(tail, minScore, kbWeight, qWeight);
    var head := HitOf(item, minScore, kbWeight, qWeight);
    var hits := head + rest;
    assert Hits(results, minScore, kbWeight, qWeight) == hits;
    if x == item {
      assert hits[0].result == x;
    } else {
      assert x in tail;
      HitsComplete(tail, minScore, kbWeight, qWeight, x);
      var i :| 0 <= i < |rest| && rest[i].result == x;
      assert hits[i + |head|] == rest[i];
    }
  }

  /** Whether two search outcomes tally the same: an error is kept exactly
      when some search failed. */
  predicate Tally(g: Gathered) {
    g.firstErr.Some? <==> g.errCount > 0
  }

  /** One search on a knowledge base: blank ids are skipped; a failure is
      counted and the first one kept; hits are appended. */
  function SearchKb(g: Gathered, vector: seq<real>, qWeight: real, kb: BotKnowledgeBase, topK: int, minScore: real,
                    search: VectorSearchRequest -> Result<seq<SearchResult>>): Gathered {
    var kbId := TrimSpace(kb.kbId);
    if kbId == "" then g
    else
      match search(VectorSearchRequest(vector, kbId, topK, minScore))
      case Fail(e) => Gathered(g.scored, g.errCount + 1, if g.firstErr.None? then Some(e) else g.firstErr)
      case Ok(results) => g.(scored := g.scored + Hits(results, minScore, KbWeight(kb), qWeight))
  }

  /** The searches of one query over the knowledge bases, in order. */
  function OverKbs(g: Gathered, vector: seq<real>, qWeight: real, kbs: seq<BotKnowledgeBase>, topK: int, minScore: real,
                   search: VectorSearchRequest -> Result<seq<SearchResult>>): Gathered
    decreases |kbs|
  {
    if kbs == [] then g
    else OverKbs(SearchKb(g, vector, qWeight, kbs[0], topK, minScore, search), vector, qWeight, kbs[1..], topK, minScore, search)
  }

  /** The searches of every query from index q on. */
  function OverQueries(g: Gathered, vectors: seq<seq<real>>, weights: seq<real>, q: nat, kbs: seq<BotKnowledgeBase>,
                       topK: int, minScore: real, search: VectorSearchRequest -> Result<seq<SearchResult>>): Gathered
    decreases |vectors| - q
  {
    if q >= |vectors| then g
    else OverQueries(OverKbs(g, vectors[q], QueryWeight(weights, q), kbs, topK, minScore, search),
                     vectors, weights, q + 1, kbs, topK, minScore, search)
  }

  /** Everything the retrieve step's searches gather. */
  function Gather(s: State, search: VectorSearchRequest -> Result<seq<SearchResult>>): Gathered {
    OverQueries(NothingGathered, s.queryVectors, s.queryWeights, 0, s.kbs, s.topK, DeriveRetrieveThreshold(s.threshold), search)
  }

  /** g grows into h: the hits gathered so far stay in front, and failures
      are only ever added. */
  predicate Grows(g: Gathered, h: Gathered) {
    && |g.scored| <= |h.scored| && h.scored[..|g.scored|] == g.scored
    && g.errCount <= h.errCount
  }

  /** Every knowledge base id is blank. */
  predicate AllBlank(kbs: seq<BotKnowledgeBase>) {
    forall k :: 0 <= k < |kbs| ==> TrimSpace(kbs[k].kbId) == ""
  }

  /** Searching the knowledge bases keeps the tally honest and the hits
      well scored, only grows what was gathered, and does nothing when
      every id is blank. */
  lemma {:induction false} OverKbsShape(g: Gathered, vector: seq<real>, qWeight: real, kbs: seq<BotKnowledgeBase>,
                                         topK: int, minScore: real, search: VectorSearchRequest -> Result<seq<SearchResult>>)
    requires Tally(g) && WellScored(g.scored, minScore)
    ensures var h := OverKbs(g, vector, qWeight, kbs, topK, minScore, search);
      Tally(h) && WellScored(h.scored, minScore) && Grows(g, h)
    ensures AllBlank(kbs) ==> OverKbs(g, vector, qWeight, kbs, topK, minScore, search) == g
    decreases |kbs|
  {
    if kbs != [] {
      var g' := SearchKb(g, vector, qWeight, kbs[0], topK, minScore, search);
      assert Tally(g') && WellScored(g'.scored, minScore) && Grows(g, g') by {
        if TrimSpace(kbs[0].kbId) != "" {
          var req := VectorSearchRequest(vector, TrimSpace(kbs[0].kbId), topK, minScore);
          if search(req).Ok? {
            var hits := Hits(search(req).value, minScore, KbWeight(kbs[0]), qWeight);
            HitsSound(search(req).value, minScore, KbWeight(kbs[0]), qWeight);
            assert g'.scored == g.scored + hits;
            assert g'.scored[..|g.scored|] == g.scored;
          }
        }
      }
      OverKbsShape(g', vector, qWeight, kbs[1..], topK, minScore, search);
      var h := OverKbs(g', vector, qWeight, kbs[1..], topK, minScore, search);
      assert h.scored[..|g.scored|] == h.scored[..|g'.scored|][..|g.scored|];
      if AllBlank(kbs) {
        assert TrimSpace(kbs[0].kbId) == "";
        assert AllBlank(kbs[1..]) by {
          forall k | 0 <= k < |kbs[1..]| ensures TrimSpace(kbs[1..][k].kbId) == "" {
            assert kbs[1..][k] == kbs[k + 1];
          }
        }
      }
    }
  }

  /** The same for all queries from index q on. */
  lemma {:induction false} OverQueriesShape(g: Gathered, vectors: seq<seq<real>>, weights: seq<real>, q: nat,
                                             kbs: seq<BotKnowledgeBase>, topK: int, minScore: real,
                                             search: VectorSearchRequest -> Result<seq<SearchResult>>)
    requires Tally(g) && WellScored(g.scored, minScore)
    ensures var h := OverQueries(g, vectors, weights, q, kbs, topK, minScore, search);
      Tally(h) && WellScored(h.scored, minScore) && Grows(g, h)
    ensures AllBlank(kbs) ==> OverQueries(g, vectors, weights, q, kbs, topK, minScore, search) == g
    decreases |vectors| - q
  {
    if q < |vectors| {
      var g' := OverKbs(g, vectors[q], QueryWeight(weights, q), kbs, topK, minScore, search);
      OverKbsShape(g, vectors[q], QueryWeight(weights, q), kbs, topK, minScore, search);
      OverQueriesShape(g', vectors, weights, q + 1, kbs, topK, minScore, search);
      var h := OverQueries(g', vectors, weights, q + 1, kbs, topK, minScore, search);
      assert h.scored[..|g.scored|] == h.scored[..|g'.scored|][..|g.scored|];
    }
  }

  /** retrieveContext: every query searched on every knowledge base; the
      first error when nothing was found and some search failed; otherwise
      the candidates ranked and cut to top-k. */
  function RetrieveContext(s: State, search: VectorSearchRequest -> Result<seq<SearchResult>>): (r: Result<State>)
    ensures s.shouldRefuse ==> r == Ok(s)
    ensures !s.shouldRefuse && r.Ok? ==>
      var ranked := r.value.ranked;
      && r.value == s.(ranked := ranked)
      && SortedDesc(ranked) && DistinctIds(ranked)
      && (s.topK > 0 ==> |ranked| <= s.topK)
      && (forall i :: 0 <= i < |ranked| ==> Id(ranked[i]) != "" && ranked[i] in Gather(s, search).scored)
  {
    if s.shouldRefuse then Ok(s)
    else
      var g := Gather(s, search);
      if g.scored == [] && g.errCount > 0 && g.firstErr.Some? then Fail(g.firstErr.value)
      else
        RankedShape(g.scored, s.topK);
        Ok(s.(ranked := Ranked(g.scored, s.topK)))
  }

  /** Retrieval fails exactly when no search found anything and at least
      one search failed, and then with the first error; its candidates are
      well scored; with no usable knowledge base it finds nothing and
      does not fail. */
  lemma RetrieveOutcome(s: State, search: VectorSearchRequest -> Result<seq<SearchResult>>)
    requires !s.shouldRefuse
    ensures var g := Gather(s, search);
      && (RetrieveContext(s, search).Fail? <==> g.scored == [] && g.errCount > 0)
      && (RetrieveContext(s, search).Fail? ==> Some(RetrieveContext(s, search).error) == g.firstErr)
      && (RetrieveContext(s, search).Ok? ==> WellScored(RetrieveContext(s, search).value.ranked, DeriveRetrieveThreshold(s.threshold)))
    ensures AllBlank(s.kbs) ==> RetrieveContext(s, search) == Ok(s.(ranked := []))
  {
    var minScore := DeriveRetrieveThreshold(s.threshold);
    OverQueriesShape(NothingGathered, s.queryVectors, s.queryWeights, 0, s.kbs, s.topK, minScore, search);
    var g := Gather(s, search);
    var r := RetrieveContext(s, search);
    if r.Ok? {
      var ranked := r.value.ranked;
      forall i | 0 <= i < |ranked|
        ensures ranked[i].score == ranked[i].vectorScore && ranked[i].textScore == 0.0
        ensures minScore > 0.0 ==> ranked[i].result.score >= minScore
      {
        var k :| 0 <= k < |g.scored| && g.scored[k] == ranked[i];
      }
    }
    if AllBlank(s.kbs) {
      assert g == NothingGathered;
      assert Merged([]) == [];
    }
  }

  // ---------------------------------------------------------------------
  // chunks

  /** The chunk ids of the candidates from some point on, skipping empty
      ones and ones already seen. */
  function ChunkIdsFrom(ranked: seq<ScoredChunk>, seen: set<string>): seq<string>
    decreases |ranked|
  {
    if ranked == [] then []
    else
      var id := Id(ranked[0]);
      if id == "" || id in seen then ChunkIdsFrom(ranked[1..], seen)
      else [id] + ChunkIdsFrom(ranked[1..], seen + {id})
  }

  function ChunkIds(ranked: seq<ScoredChunk>): seq<string> {
    ChunkIdsFrom(ranked, {})
  }

  /** The loop of loadChunksContext collecting the ids to load. */
  method CollectChunkIds(ranked: seq<ScoredChunk>) returns (ids: seq<string>)
    ensures ids == ChunkIds(ranked)
  {
    var seen: set<string> := {};
    ids := [];
    var i := 0;
    assert ranked[i..] == ranked;
    while i < |ranked|
      invariant 0 <= i <= |ranked|
      invariant ids + ChunkIdsFrom(ranked[i..], seen) == ChunkIds(ranked)
    {
      assert ranked[i..][1..] == ranked[i + 1..];
      var id := Id(ranked[i]);
      if id != "" && id !in seen {
        seen := seen + {id};
        assert ids + ([id] + ChunkIdsFrom(ranked[i + 1..], seen)) == (ids + [id]) + ChunkIdsFrom(ranked[i + 1..], seen);
        ids := ids + [id];
      }
      i := i + 1;
    }
    assert ranked[i..] == [];
    assert ids + [] == ids;
  }

  /** No id repeats, none is empty or in `seen`. */
  predicate FreshIds(ids: seq<string>, seen: set<string>) {
    && (forall i :: 0 <= i < |ids| ==> ids[i] != "" && ids[i] !in seen)
    && (forall i, j :: 0 <= i < j < |ids| ==> ids[i] != ids[j])
  }

  /** The ids to load are non-empty, unseen and distinct; each is a
      candidate's id, and every non-empty candidate id not seen before is
      among them. */
  lemma {:induction false} ChunkIdsShape(ranked: seq<ScoredChunk>, seen: set<string>)
    ensures FreshIds(ChunkIdsFrom(ranked, seen), seen)
    ensures forall i :: 0 <= i < |ChunkIdsFrom(ranked, seen)| ==>
      exists k :: 0 <= k < |ranked| && Id(ranked[k]) == ChunkIdsFrom(ranked, seen)[i]
    ensures forall k :: 0 <= k < |ranked| && Id(ranked[k]) != "" && Id(ranked[k]) !in seen ==>
      Id(ranked[k]) in ChunkIdsFrom(ranked, seen)
    decreases |ranked|
  {
    if ranked != [] {
      var id := Id(ranked[0]);
      var tail := ranked[1..];
      if id == "" || id in seen {
        ChunkIdsShape(tail, seen);
        var r := ChunkIdsFrom(tail, seen);
        forall i | 0 <= i < |r| ensures exists k :: 0 <= k < |ranked| && Id(ranked[k]) == r[i] {
          var k :| 0 <= k < |tail| && Id(tail[k]) == r[i];
          assert ranked[k + 1] == tail[k];
        }
        forall k | 0 <= k < |ranked| && Id(ranked[k]) != "" && Id(ranked[k]) !in seen ensures Id(ranked[k]) in r {
          assert k > 0;
          assert ranked[k] == tail[k - 1];
        }
      } else {
        var seen' := seen + {id};
        ChunkIdsShape(tail, seen');
        var rest := ChunkIdsFrom(tail, seen');
        var r := [id] + rest;
        assert ChunkIdsFrom(ranked, seen) == r;
        forall i | 0 <= i < |r| ensures r[i] != "" && r[i] !in seen {
          if i > 0 {
            assert r[i] == rest[i - 1];
          }
        }
        forall i, j | 0 <= i < j < |r| ensures r[i] != r[j] {
          assert r[j] == rest[j - 1];
          if i > 0 {
            assert r[i] == rest[i - 1];
          }
        }
        forall i | 0 <= i < |r| ensures exists k :: 0 <= k < |ranked| && Id(ranked[k]) == r[i] {
          if i == 0 {
            assert Id(ranked[0]) == r[0];
          } else {
            assert r[i] == rest[i - 1];
            var k :| 0 <= k < |tail| && Id(tail[k]) == rest[i - 1];
            assert ranked[k + 1] == tail[k];
          }
        }
        forall k | 0 <= k < |ranked| && Id(ranked[k]) != "" && Id(ranked[k]) !in seen ensures Id(ranked[k]) in r {
          if k == 0 {
            assert r[0] == id;
          } else {
            assert ranked[k] == tail[k - 1];
            if Id(ranked[k]) != id {
              assert Id(ranked[k]) in rest;
            } else {
              assert r[0] == id;
            }
          }
        }
      }
    }
  }

  /** loadChunksContext: the chunks of the candidates, loaded by id. */
  function LoadChunksContext(s: State, load: seq<string> -> Result<map<string, ChunkMeta>>): (r: Result<State>)
    ensures s.shouldRefuse || s.ranked == [] ==> r == Ok(s)
    ensures r.Fail? <==> !s.shouldRefuse && s.ranked != [] && load(ChunkIds(s.ranked)).Fail?
    ensures r.Ok? ==> r.value == s.(chunks := r.value.chunks)
  {
    if s.shouldRefuse || s.ranked == [] then Ok(s)
    else
      match load(ChunkIds(s.ranked))
      case Fail(e) => Fail(e)
      case Ok(chunks) => Ok(s.(chunks := chunks))
  }

  // ---------------------------------------------------------------------
  // rerank, assess, prompt, llm

  /** rerankContext: candidates rescored against their text and sorted by
      the blended score, highest first. */
  function RerankContext(s: State, weight: real): (r: State)
    ensures s.shouldRefuse || s.ranked == [] ==> r == s
    ensures r == s.(ranked := r.ranked)
    ensures |r.ranked| == |s.ranked|
    ensures !s.shouldRefuse ==> SortedDesc(r.ranked)
    ensures DistinctIds(s.ranked) ==> DistinctIds(r.ranked)
    ensures forall k :: 0 <= k < |r.ranked| ==>
      exists i :: 0 <= i < |s.ranked| && r.ranked[k].result == s.ranked[i].result && r.ranked[k].vectorScore == s.ranked[i].vectorScore
  {
    if s.shouldRefuse || s.ranked == [] then s
    else
      RerankedShape(s.ranked, s.chunks, s.normalized, weight);
      s.(ranked := Reranked(s.ranked, s.chunks, s.normalized, weight))
  }

  /** What assessContext decides about a context. */
  function Assessed(s: State, opts: Options, w: Services): Assessment {
    Assess(s.ranked, s.topK, s.threshold, Some(w.llmModel), opts.llmTimeoutMs, w.remainingNs, w.crossReply, w.decode)
  }

  /** assessContext: the confidence of the (possibly cross-encoder
      reordered) candidates; no candidates or a confidence below the
      threshold means refusing with the refusal message. It runs whether
      or not the context already refuses. */
  function AssessContext(s: State, opts: Options, w: Services): (r: State)
    ensures r == s.(ranked := r.ranked, confidence := r.confidence, shouldRefuse := r.shouldRefuse, reply := r.reply)
    ensures r.confidence == Confidence(r.ranked, s.topK) && 0.0 <= r.confidence <= 1.0
    ensures r.shouldRefuse <==> s.shouldRefuse || r.ranked == [] || r.confidence < s.threshold
    ensures r.shouldRefuse && !s.shouldRefuse ==> r.reply == opts.refusalMessage
    ensures r.reply == s.reply || r.reply == opts.refusalMessage
    ensures !Assessed(s, opts, w).shouldRefuse ==> r.reply == s.reply
  {
    var a := Assessed(s, opts, w);
    var t := s.(ranked := a.ranked, confidence := a.confidence);
    if a.shouldRefuse then t.(shouldRefuse := true, reply := opts.refusalMessage) else t
  }

  /** Assessing keeps the candidates of a ranking with distinct ids, only
      possibly reordered. */
  lemma AssessKeeps(s: State, opts: Options, w: Services)
    requires DistinctIds(s.ranked)
    ensures var r := AssessContext(s, opts, w);
      |r.ranked| == |s.ranked| && (forall x :: x in r.ranked <==> x in s.ranked) && DistinctIds(r.ranked)
  {
    AssessPermutes(s.ranked, s.topK, s.threshold, Some(w.llmModel), opts.llmTimeoutMs, w.remainingNs, w.crossReply, w.decode);
  }

  /** promptContext: the prompt built from the question and candidates. */
  function PromptContext(s: State): (r: State)
    ensures s.shouldRefuse ==> r == s
    ensures r == s.(prompt := r.prompt)
    ensures !s.shouldRefuse ==> HasPrefix(r.prompt, Preamble + "Context:\n") && HasSuffix(r.prompt, Tail(s.req.message))
  {
    if s.shouldRefuse then s
    else
      PromptShape(s.req.message, s.ranked, s.chunks);
      s.(prompt := BuildPrompt(s.req.message, s.ranked, s.chunks))
  }

  /** The request the llm step sends. */
  function LlmRequestOf(s: State, opts: Options): LlmRequest {
    LlmRequest(opts.systemPrompt, s.prompt, opts.llmTemperature, opts.llmMaxTokens)
  }

  /** llmContext: the trimmed answer of the LLM as the reply. */
  function LlmContext(s: State, opts: Options, generate: LlmRequest -> Result<string>): (r: Result<State>)
    ensures s.shouldRefuse ==> r == Ok(s)
    ensures r.Fail? <==> !s.shouldRefuse && generate(LlmRequestOf(s, opts)).Fail?
    ensures r.Ok? ==> r.value == s.(reply := r.value.reply)
    ensures !s.shouldRefuse && r.Ok? ==> TrimSpace(r.value.reply) == r.value.reply
  {
    if s.shouldRefuse then Ok(s)
    else
      match generate(LlmRequestOf(s, opts))
      case Fail(e) => Fail(e)
      case Ok(text) =>
        TrimSpaceIdempotent(text);
        Ok(s.(reply := TrimSpace(text)))
  }

  // ---------------------------------------------------------------------
  // output

  /** pickString: the primary value unless it is blank. */
  function PickString(primary: string, fallback: string): (r: string)
    ensures r == primary || r == fallback
    ensures TrimSpace(primary) != "" ==> r == primary
    ensures TrimSpace(r) == "" <==> TrimSpace(primary) == "" && TrimSpace(fallback) == ""
  {
    if TrimSpace(primary) != "" then primary else fallback
  }

  /** The reference for the candidate at 0-based position idx. */
  function ReferenceOf(item: ScoredChunk, chunks: map<string, ChunkMeta>, idx: int): Reference {
    var meta := MetaOf(chunks, Id(item));
    Reference(PickString(meta.documentId, item.result.documentId),
              PickString(meta.documentVersionId, item.result.documentVersionId),
              Id(item), item.score, idx + 1, TruncateText(meta.content, 200))
  }

  /** buildReferences: one reference per candidate, in order, ranked from
      1, with the chunk's ids preferred over the hit's and a snippet of at
      most 200 characters plus "...". */
  function BuildReferences(ranked: seq<ScoredChunk>, chunks: map<string, ChunkMeta>): (refs: seq<Reference>)
    ensures |refs| == |ranked|
    ensures forall i :: 0 <= i < |refs| ==>
      && refs[i].rank == i + 1 && refs[i].chunkId == Id(ranked[i]) && refs[i].score == ranked[i].score
      && |refs[i].snippet| <= 203
      && refs[i].snippet == TruncateText(MetaOf(chunks, Id(ranked[i])).content, 200)
      && (TrimSpace(MetaOf(chunks, Id(ranked[i])).documentId) != "" ==> refs[i].documentId == MetaOf(chunks, Id(ranked[i])).documentId)
      && (TrimSpace(MetaOf(chunks, Id(ranked[i])).documentId) == "" ==> refs[i].documentId == ranked[i].result.documentId)
      && (refs[i].documentVersionId == MetaOf(chunks, Id(ranked[i])).documentVersionId
          || refs[i].documentVersionId == ranked[i].result.documentVersionId)
  {
    seq(|ranked|, i requires 0 <= i < |ranked| => ReferenceOf(ranked[i], chunks, i))
  }

  /** The loop of buildReferences. */
  method CollectReferences(ranked: seq<ScoredChunk>, chunks: map<string, ChunkMeta>) returns (refs: seq<Reference>)
    ensures refs == BuildReferences(ranked, chunks)
  {
    refs := [];
    var i := 0;
    while i < |ranked|
      invariant 0 <= i <= |ranked|
      invariant refs == BuildReferences(ranked[..i], chunks)
    {
      refs := refs + [ReferenceOf(ranked[i], chunks, i)];
      i := i + 1;
      assert ranked[..i][..i - 1] == ranked[..i - 1];
    }
    assert ranked[..i] == ranked;
  }

  /** buildResponse: the trimmed reply, or the refusal message when it is
      blank; the confidence; the references of the candidates. */
  function BuildResponse(rc: Option<State>, refusal: string): (r: Result<MessageResponse>)
    ensures r.Fail? <==> rc.None?
    ensures rc.None? ==> r == Fail(InternalServer("RAG_CONTEXT_MISSING"))
    ensures r.Ok? ==> r.value.reply == TrimSpace(rc.value.reply) || r.value.reply == refusal
    ensures r.Ok? && TrimSpace(rc.value.reply) != "" ==> r.value.reply == TrimSpace(rc.value.reply)
    ensures r.Ok? && TrimSpace(refusal) != "" ==> TrimSpace(r.value.reply) != ""
    ensures r.Ok? ==> r.value.confidence == rc.value.confidence && |r.value.references| == |rc.value.ranked|
  {
    if rc.None? then Fail(InternalServer("RAG_CONTEXT_MISSING"))
    else
      var s := rc.value;
      var reply := TrimSpace(s.reply);
      TrimSpaceIdempotent(s.reply);
      Ok(MessageResponse(if reply == "" then refusal else reply, s.confidence, BuildReferences(s.ranked, s.chunks)))
  }

  // ---------------------------------------------------------------------
  // runPipeline

  /** The context after the steps up to and including assess. */
  function UntilAssess(opts: Options, req: MessageRequest, w: Services): (r: Result<State>)
    ensures TrimSpace(req.botId) == "" ==> r == Fail(BadRequest("BOT_ID_MISSING"))
    ensures TrimSpace(req.botId) != "" && TrimSpace(req.message) == "" ==> r == Fail(BadRequest("MESSAGE_MISSING"))
    ensures r.Ok? ==> 0.0 <= r.value.confidence <= 1.0
  {
    var s0 :- InitContext(opts, req);
    var s1 :- ResolveContext(s0, w.resolve);
    var s2 :- EmbedContext(s1, w.embed);
    var s3 :- RetrieveContext(s2, w.search);
    var s4 :- LoadChunksContext(s3, w.load);
    var s5 := RerankContext(s4, opts.rerankWeight);
    Ok(AssessContext(s5, opts, w))
  }

  /** The context after every step. */
  function Staged(opts: Options, req: MessageRequest, w: Services): (r: Result<State>)
    ensures TrimSpace(req.botId) == "" ==> r == Fail(BadRequest("BOT_ID_MISSING"))
    ensures TrimSpace(req.botId) != "" && TrimSpace(req.message) == "" ==> r == Fail(BadRequest("MESSAGE_MISSING"))
    ensures r.Ok? ==> 0.0 <= r.value.confidence <= 1.0
  {
    var s6 :- UntilAssess(opts, req, w);
    var s7 := PromptContext(s6);
    LlmContext(s7, opts, w.generate)
  }

  /** runPipeline: the steps in order, the first error ending the run,
      and the response built from the final context. A missing bot id or
      message is rejected, the confidence is between 0 and 1, and the
      reply is never blank when the refusal message is not. */
  function Answer(opts: Options, req: MessageRequest, w: Services): (r: Result<MessageResponse>)
    ensures TrimSpace(req.botId) == "" ==> r == Fail(BadRequest("BOT_ID_MISSING"))
    ensures TrimSpace(req.botId) != "" && TrimSpace(req.message) == "" ==> r == Fail(BadRequest("MESSAGE_MISSING"))
    ensures r.Ok? ==> 0.0 <= r.value.confidence <= 1.0
    ensures r.Ok? && TrimSpace(opts.refusalMessage) != "" ==> TrimSpace(r.value.reply) != ""
  {
    var s :- Staged(opts, req, w);
    BuildResponse(Some(s), opts.refusalMessage)
  }

  /** Once the steps up to assess end refusing, the LLM is never asked:
      the answer is the same whatever the LLM would say, its reply is the
      refusal message (trimmed unless blank) and its confidence is the one
      assess computed. */
  lemma RefusalSkipsLlm(opts: Options, req: MessageRequest, w: Services, generate: LlmRequest -> Result<string>)
    requires UntilAssess(opts, req, w).Ok? && UntilAssess(opts, req, w).value.shouldRefuse
    ensures Answer(opts, req, w) == Answer(opts, req, w.(generate := generate))
    ensures Answer(opts, req, w).Ok?
    ensures Answer(opts, req, w).value.reply ==
      (if TrimSpace(opts.refusalMessage) != "" then TrimSpace(opts.refusalMessage) else opts.refusalMessage)
    ensures Answer(opts, req, w).value.confidence == UntilAssess(opts, req, w).value.confidence
  {
    var w' := w.(generate := generate);
    UntilAssessIgnoresLlm(opts, req, w, generate);
    var s6 := UntilAssess(opts, req, w).value;
    assert Staged(opts, req, w) == Ok(s6);
    assert Staged(opts, req, w') == Ok(s6);
    ReplyBeforeAssess(opts, req, w);
    RefusedResponse(s6, opts.refusalMessage);
  }

  /** The response to a context whose reply is the refusal message. */
  lemma RefusedResponse(s: State, refusal: string)
    requires s.reply == refusal
    ensures BuildResponse(Some(s), refusal).Ok?
    ensures BuildResponse(Some(s), refusal).value.reply ==
      (if TrimSpace(refusal) != "" then TrimSpace(refusal) else refusal)
    ensures BuildResponse(Some(s), refusal).value.confidence == s.confidence
  {
    TrimSpaceEmpty(refusal);
  }

  /** The steps up to assess do not ask the LLM for an answer. */
  lemma UntilAssessIgnoresLlm(opts: Options, req: MessageRequest, w: Services, generate: LlmRequest -> Result<string>)
    ensures UntilAssess(opts, req, w) == UntilAssess(opts, req, w.(generate := generate))
  {
    var w' := w.(generate := generate);
    assert w'.resolve == w.resolve && w'.embed == w.embed && w'.search == w.search && w'.load == w.load;
    if InitContext(opts, req).Ok? {
      var s0 := InitContext(opts, req).value;
      if ResolveContext(s0, w.resolve).Ok? {
        var s1 := ResolveContext(s0, w.resolve).value;
        if EmbedContext(s1, w.embed).Ok? {
          var s2 := EmbedContext(s1, w.embed).value;
          if RetrieveContext(s2, w.search).Ok? {
            var s3 := RetrieveContext(s2, w.search).value;
            if LoadChunksContext(s3, w.load).Ok? {
              var s5 := RerankContext(LoadChunksContext(s3, w.load).value, opts.rerankWeight);
              assert Assessed(s5, opts, w) == Assessed(s5, opts, w');
              assert AssessContext(s5, opts, w) == AssessContext(s5, opts, w');
            }
          }
        }
      }
    }
  }

  /** Until assess, nothing writes the reply: it is still empty or it is
      the refusal message assess wrote. */
  lemma ReplyBeforeAssess(opts: Options, req: MessageRequest, w: Services)
    requires UntilAssess(opts, req, w).Ok?
    ensures UntilAssess(opts, req, w).value.reply in {"", opts.refusalMessage}
    ensures UntilAssess(opts, req, w).value.shouldRefuse ==> UntilAssess(opts, req, w).value.reply == opts.refusalMessage
  {
    var s0 := InitContext(opts, req).value;
    var s1 := ResolveContext(s0, w.resolve).value;
    var s2 := EmbedContext(s1, w.embed).value;
    var s3 := RetrieveContext(s2, w.search).value;
    var s4 := LoadChunksContext(s3, w.load).value;
    var s5 := RerankContext(s4, opts.rerankWeight);
    assert s5.reply == "";
  }

  /** A bot with no knowledge base gets the refusal message, a confidence
      of 0 and no references, and the LLM is never asked. */
  lemma NoKnowledgeRefuses(opts: Options, req: MessageRequest, w: Services)
    requires TrimSpace(req.botId) != "" && TrimSpace(req.message) != ""
    requires w.resolve(TrimSpace(req.botId)) == Ok([])
    ensures Answer(opts, req, w) ==
      Ok(MessageResponse(if TrimSpace(opts.refusalMessage) != "" then TrimSpace(opts.refusalMessage) else opts.refusalMessage,
                         0.0, []))
  {
    var s0 := InitContext(opts, req).value;
    var s1 := ResolveContext(s0, w.resolve).value;
    assert s1.shouldRefuse && s1.ranked == [];
    assert EmbedContext(s1, w.embed) == Ok(s1);
    assert RetrieveContext(s1, w.search) == Ok(s1);
    assert LoadChunksContext(s1, w.load) == Ok(s1);
    var s5 := RerankContext(s1, opts.rerankWeight);
    assert s5 == s1;
    var s6 := AssessContext(s5, opts, w);
    assert s6.ranked == [] && s6.confidence == 0.0 && s6.shouldRefuse;
    assert UntilAssess(opts, req, w) == Ok(s6);
    RefusalSkipsLlm(opts, req, w, w.generate);
    assert Staged(opts, req, w) == Ok(s6);
  }

  // ---------------------------------------------------------------------
  // The context as the steps update it

  /** The hits loop of one search. */
  method CollectHits(results: seq<SearchResult>, minScore: real, kbWeight: real, qWeight: real) returns (local: seq<ScoredChunk>)
    ensures local == Hits(results, minScore, kbWeight, qWeight)
  {
    local := [];
    var i := 0;
    assert results[i..] == results;
    while i < |results|
      invariant 0 <= i <= |results|
      invariant local + Hits(results[i..], minScore, kbWeight, qWeight) == Hits(results, minScore, kbWeight, qWeight)
    {
      assert results[i..][1..] == results[i + 1..];
      var item := results[i];
      var head := HitOf(item, minScore, kbWeight, qWeight);
      assert local + (head + Hits(results[i + 1..], minScore, kbWeight, qWeight))
          == (local + head) + Hits(results[i + 1..], minScore, kbWeight, qWeight);
      if !(minScore > 0.0 && item.score < minScore) {
        var vecScore := Weighted(item.score, kbWeight, qWeight);
        local := local + [ScoredChunk(item, vecScore, 0.0, vecScore)];
      } else {
        assert head == [];
        assert local + head == local;
      }
      i := i + 1;
    }
    assert results[i..] == [];
    assert local + [] == local;
  }

  /** The searches of one query over the knowledge bases. */
  method SearchKbs(g0: Gathered, vector: seq<real>, qWeight: real, kbs: seq<BotKnowledgeBase>, topK: int, minScore: real,
                   search: VectorSearchRequest -> Result<seq<SearchResult>>) returns (g: Gathered)
    ensures g == OverKbs(g0, vector, qWeight, kbs, topK, minScore, search)
  {
    g := g0;
    var k := 0;
    assert kbs[k..] == kbs;
    while k < |kbs|
      invariant 0 <= k <= |kbs|
      invariant OverKbs(g, vector, qWeight, kbs[k..], topK, minScore, search) == OverKbs(g0, vector, qWeight, kbs, topK, minScore, search)
    {
      assert kbs[k..][1..] == kbs[k + 1..];
      var kb := kbs[k];
      var kbId := TrimSpace(kb.kbId);
      if kbId != "" {
        var res := search(VectorSearchRequest(vector, kbId, topK, minScore));
        if res.Fail? {
          g := Gathered(g.scored, g.errCount + 1, if g.firstErr.None? then Some(res.error) else g.firstErr);
        } else {
          var weight := kb.weight;
          if weight <= 0.0 {
            weight := 1.0;
          }
          var local := CollectHits(res.value, minScore, weight, qWeight);
          g := g.(scored := g.scored + local);
        }
      }
      k := k + 1;
    }
  }

  /** The nested loops of retrieveContext, one search per query and
      knowledge base. */
  method GatherScored(vectors: seq<seq<real>>, weights: seq<real>, kbs: seq<BotKnowledgeBase>, topK: int, minScore: real,
                      search: VectorSearchRequest -> Result<seq<SearchResult>>) returns (g: Gathered)
    ensures g == OverQueries(NothingGathered, vectors, weights, 0, kbs, topK, minScore, search)
  {
    g := NothingGathered;
    var q := 0;
    while q < |vectors|
      invariant 0 <= q <= |vectors|
      invariant OverQueries(g, vectors, weights, q, kbs, topK, minScore, search)
             == OverQueries(NothingGathered, vectors, weights, 0, kbs, topK, minScore, search)
    {
      var qWeight := 1.0;
      if q < |weights| {
        qWeight := weights[q];
      }
      g := SearchKbs(g, vectors[q], qWeight, kbs, topK, minScore, search);
      q := q + 1;
    }
  }

  /** A step's outcome as the step function states it. */
  function Done(err: Outcome, s: State): Result<State> {
    if err.Pass? then Ok(s) else Fail(err.error)
  }

  /** ragContext, updated in place by the steps. */
  class RagContext {
    var req: MessageRequest
    var topK: int
    var threshold: real
    var kbs: seq<BotKnowledgeBase>
    var queryVector: seq<real>
    var queryVectors: seq<seq<real>>
    var queryWeights: seq<real>
    var normalized: string
    var queries: seq<string>
    var ranked: seq<ScoredChunk>
    var chunks: map<string, ChunkMeta>
    var prompt: string
    var reply: string
    var confidence: real
    var shouldRefuse: bool

    /** The context's current contents. */
    function Snapshot(): State
      reads this
    {
      State(req, topK, threshold, kbs, queryVector, queryVectors, queryWeights, normalized, queries,
            ranked, chunks, prompt, reply, confidence, shouldRefuse)
    }

    /** A fresh context for a request, with nothing resolved yet. */
    constructor (req: MessageRequest, topK: int, threshold: real, normalized: string, queries: seq<string>, weights: seq<real>)
      ensures Snapshot() == State(req, topK, threshold, [], [], [], weights, normalized, queries, [], map[], "", "", 0.0, false)
    {
      this.req := req;
      this.topK := topK;
      this.threshold := threshold;
      this.kbs := [];
      this.queryVector := [];
      this.queryVectors := [];
      this.queryWeights := weights;
      this.normalized := normalized;
      this.queries := queries;
      this.ranked := [];
      this.chunks := map[];
      this.prompt := "";
      this.reply := "";
      this.confidence := 0.0;
      this.shouldRefuse := false;
    }

    /** resolveContext. */
    method Resolve(resolve: string -> Result<seq<BotKnowledgeBase>>) returns (err: Outcome)
      modifies this
      ensures ResolveContext(old(Snapshot()), resolve) == Done(err, Snapshot())
      ensures err.Failed? ==> Snapshot() == old(Snapshot())
    {
      if shouldRefuse {
        return Pass;
      }
      var found := resolve(req.botId);
      if found.Fail? {
        return Failed(found.error);
      }
      kbs := found.value;
      if |kbs| == 0 {
        shouldRefuse := true;
      }
      return Pass;
    }

    /** embedContext. */
    method Embed(embed: seq<string> -> Result<seq<seq<real>>>) returns (err: Outcome)
      modifies this
      ensures EmbedContext(old(Snapshot()), embed) == Done(err, Snapshot())
      ensures err.Failed? ==> Snapshot() == old(Snapshot())
    {
      if shouldRefuse {
        return Pass;
      }
      var vecs := embed(queries);
      if vecs.Fail? {
        return Failed(vecs.error);
      }
      if |vecs.value| == 0 {
        return Failed(InternalServer("EMBEDDING_EMPTY"));
      }
      if |vecs.value| != |queries| {
        return Failed(InternalServer("EMBEDDING_COUNT_MISMATCH"));
      }
      queryVector := vecs.value[0];
      queryVectors := vecs.value;
      return Pass;
    }

    /** retrieveContext. */
    method Retrieve(search: VectorSearchRequest -> Result<seq<SearchResult>>) returns (err: Outcome)
      modifies this
      ensures RetrieveContext(old(Snapshot()), search) == Done(err, Snapshot())
      ensures err.Failed? ==> Snapshot() == old(Snapshot())
    {
      if shouldRefuse {
        return Pass;
      }
      var minScore := DeriveRetrieveThreshold(threshold);
      var g := GatherScored(queryVectors, queryWeights, kbs, topK, minScore, search);
      if |g.scored| == 0 && g.errCount > 0 && g.firstErr.Some? {
        return Failed(g.firstErr.value);
      }
      ranked := RankAndFilter(g.scored, topK);
      return Pass;
    }

    /** loadChunksContext. */
    method LoadChunks(load: seq<string> -> Result<map<string, ChunkMeta>>) returns (err: Outcome)
      modifies this
      ensures LoadChunksContext(old(Snapshot()), load) == Done(err, Snapshot())
      ensures err.Failed? ==> Snapshot() == old(Snapshot())
    {
      if shouldRefuse || |ranked| == 0 {
        return Pass;
      }
      var ids := CollectChunkIds(ranked);
      var loaded := load(ids);
      if loaded.Fail? {
        return Failed(loaded.error);
      }
      chunks := loaded.value;
      return Pass;
    }

    /** rerankContext: every candidate rescored in place, then sorted. */
    method RerankCandidates(weight: real)
      modifies this
      ensures Snapshot() == RerankContext(old(Snapshot()), weight)
    {
      if shouldRefuse || |ranked| == 0 {
        return;
      }
      var rescored := RescoreAll(ranked, chunks, normalized, weight);
      ranked := SortDesc(rescored);
    }

    /** crossEncoderRerank: the candidates reordered as the LLM's reply
        names them; true when the LLM call failed. */
    method CrossEncode(llm: Option<string>, llmTimeoutMs: int, remainingNs: Option<int>, crossReply: Option<string>,
                       decode: string -> Option<seq<string>>) returns (failed: bool)
      modifies this
      ensures var cr := CrossEncoderRerank(old(ranked), llm, llmTimeoutMs, remainingNs, crossReply, decode);
        && (failed <==> cr.CallFailed?)
        && Snapshot() == old(Snapshot()).(ranked := if cr.Reordered? then cr.ranked else old(ranked))
    {
      if !CrossEncoderCalls(ranked, llm, llmTimeoutMs, remainingNs) {
        return false;
      }
      if crossReply.None? {
        return true;
      }
      var order := ParseRerankOrder(crossReply.value, decode);
      if |order| == 0 {
        return false;
      }
      ranked := ApplyRerankOrderLoop(order, ranked);
      return false;
    }

    /** assessContext. */
    method AssessCandidates(opts: Options, w: Services)
      modifies this
      ensures Snapshot() == AssessContext(old(Snapshot()), opts, w)
    {
      var conf := ComputeConfidence(ranked, topK);
      if |ranked| > 1 && conf < threshold {
        var failed := CrossEncode(Some(w.llmModel), opts.llmTimeoutMs, w.remainingNs, w.crossReply, w.decode);
        if !failed {
          conf := ComputeConfidence(ranked, topK);
        }
      }
      confidence := conf;
      if |ranked| == 0 || conf < threshold {
        shouldRefuse := true;
        reply := opts.refusalMessage;
      }
    }

    /** promptContext. */
    method ComposePrompt()
      modifies this
      ensures Snapshot() == PromptContext(old(Snapshot()))
    {
      if shouldRefuse {
        return;
      }
      prompt := WritePrompt(req.message, ranked, chunks);
    }

    /** llmContext. */
    method AskLlm(opts: Options, generate: LlmRequest -> Result<string>) returns (err: Outcome)
      modifies this
      ensures LlmContext(old(Snapshot()), opts, generate) == Done(err, Snapshot())
      ensures err.Failed? ==> Snapshot() == old(Snapshot())
    {
      if shouldRefuse {
        return Pass;
      }
      var resp := generate(LlmRequest(opts.systemPrompt, prompt, opts.llmTemperature, opts.llmMaxTokens));
      if resp.Fail? {
        return Failed(resp.error);
      }
      reply := TrimSpace(resp.value);
      return Pass;
    }

    /** buildResponse. */
    method Respond(refusal: string) returns (r: MessageResponse)
      ensures BuildResponse(Some(Snapshot()), refusal) == Ok(r)
    {
      var text := TrimSpace(reply);
      if text == "" {
        text := refusal;
      }
      var refs := CollectReferences(ranked, chunks);
      r := MessageResponse(text, confidence, refs);
    }
  }

  /** initContext, building the context of a request. */
  method NewContext(opts: Options, req: MessageRequest) returns (rc: RagContext?, err: Outcome)
    ensures err.Pass? <==> rc != null
    ensures rc != null ==> fresh(rc) && InitContext(opts, req) == Ok(rc.Snapshot())
    ensures err.Failed? ==> InitContext(opts, req) == Fail(err.error)
  {
    var botId := TrimSpace(req.botId);
    var message := TrimSpace(req.message);
    if botId == "" {
      return null, Failed(BadRequest("BOT_ID_MISSING"));
    }
    if message == "" {
      return null, Failed(BadRequest("MESSAGE_MISSING"));
    }
    var topK := req.topK;
    if topK <= 0 {
      topK := opts.topK;
    }
    var threshold := req.threshold;
    if threshold <= 0.0 {
      threshold := opts.scoreThreshold;
    }
    var normalized := QueryNormalize.BuildNormalized(message);
    if normalized == "" {
      normalized := TrimSpace(message);
    }
    assert normalized == QueryOf(message);
    var queries := BuildDedupe([normalized]);
    TrimSpaceIdempotent(req.message);
    QueryOfShape(message);
    DedupeSingle(normalized);
    var weights := AlignQueryWeights(queries, [1.0]);
    assert weights == [1.0];
    rc := new RagContext(req.(botId := botId, message := message), topK, threshold, normalized, queries, weights);
    err := Pass;
  }

  /** runPipeline on a context updated in place. */
  method RunPipeline(opts: Options, req: MessageRequest, w: Services) returns (r: Result<MessageResponse>)
    ensures r == Answer(opts, req, w)
  {
    var rc, err := NewContext(opts, req);
    if err.Failed? {
      return Fail(err.error);
    }
    ghost var s0 := rc.Snapshot();
    err := rc.Resolve(w.resolve);
    if err.Failed? {
      return Fail(err.error);
    }
    ghost var s1 := rc.Snapshot();
    err := rc.Embed(w.embed);
    if err.Failed? {
      return Fail(err.error);
    }
    ghost var s2 := rc.Snapshot();
    err := rc.Retrieve(w.search);
    if err.Failed? {
      return Fail(err.error);
    }
    ghost var s3 := rc.Snapshot();
    err := rc.LoadChunks(w.load);
    if err.Failed? {
      return Fail(err.error);
    }
    rc.RerankCandidates(opts.rerankWeight);
    rc.AssessCandidates(opts, w);
    assert UntilAssess(opts, req, w) == Ok(rc.Snapshot());
    rc.ComposePrompt();
    err := rc.AskLlm(opts, w.generate);
    if err.Failed? {
      return Fail(err.error);
    }
    assert Staged(opts, req, w) == Ok(rc.Snapshot());
    var resp := rc.Respond(opts.refusalMessage);
    return Ok(resp);
  }
}
