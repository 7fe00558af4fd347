/** The answering pipeline's repository (apps/server/internal/rag/data/rag.go):
    the knowledge bases bound to a bot, vector search over one knowledge
    base, and chunk metadata loaded by id. The SQL database and the vector
    database are parameters: each takes what the repository sends (the
    tenant, the ids, the query text) and gives back rows or an error. */
module RagStore {
  import opened Wrappers
  import opened Text
  import opened Contexts
  import opened Tenancy
  import opened Scoring
  import opened Prompt
  import Pipeline

  // ---------------------------------------------------------------------
  // NewRAGRepo

  datatype VectorDbConfig = VectorDbConfig(driver: string, endpoint: string, apiKey: string, collection: string)

  /** The repository: whether a vector client is configured, and the
      collection it searches. */
  datatype RagRepo = RagRepo(hasVector: bool, collection: string)

  const DefaultCollection := "ragdesk_chunks"

  /** NewRAGRepo: a vector client only for the qdrant driver with an
      endpoint; the configured collection, or the default one when that
      is blank. */
  function NewRagRepo(cfg: Option<VectorDbConfig>): (r: RagRepo)
    ensures r.hasVector <==> cfg.Some? && cfg.value.driver == "qdrant" && cfg.value.endpoint != ""
    ensures TrimSpace(r.collection) != ""
    ensures r.hasVector && TrimSpace(cfg.value.collection) != "" ==> r.collection == cfg.value.collection
    ensures !r.hasVector ==> r.collection == DefaultCollection
  {
    var hasVector := cfg.Some? && cfg.value.driver == "qdrant" && cfg.value.endpoint != "";
    var collection := if hasVector then cfg.value.collection else "";
    assert !IsSpace(DefaultCollection[0]) && !IsSpace(DefaultCollection[|DefaultCollection| - 1]);
    TrimSpaceUntouched(DefaultCollection);
    RagRepo(hasVector, if TrimSpace(collection) == "" then DefaultCollection else collection)
  }

  // ---------------------------------------------------------------------
  // ResolveBotKnowledgeBases

  /** ResolveBotKnowledgeBases: the tenant is required; a blank bot id has
      no knowledge bases and the database is not asked; otherwise the
      bindings of the tenant's bot, as the database returns them.
      `bindings` answers the query for a tenant and a trimmed bot id. */
  function ResolveBotKnowledgeBases(ctx: Context, botId: string,
                                    bindings: (string, string) -> Result<seq<Pipeline.BotKnowledgeBase>>)
    : (r: Result<seq<Pipeline.BotKnowledgeBase>>)
    ensures RequireTenantID(ctx).Fail? ==> r == Fail(TenantMissing)
    ensures RequireTenantID(ctx).Ok? && TrimSpace(botId) == "" ==> r == Ok([])
    ensures RequireTenantID(ctx).Ok? && TrimSpace(botId) != "" ==>
      r == bindings(RequireTenantID(ctx).value, TrimSpace(botId))
  {
    var tenantId :- RequireTenantID(ctx);
    var id := TrimSpace(botId);
    if id == "" then Ok([]) else bindings(tenantId, id)
  }

  /** A blank bot id never reaches the database: whatever it would answer,
      the result is the same. */
  lemma BlankBotSkipsDatabase(ctx: Context, botId: string,
                              a: (string, string) -> Result<seq<Pipeline.BotKnowledgeBase>>,
                              b: (string, string) -> Result<seq<Pipeline.BotKnowledgeBase>>)
    requires TrimSpace(botId) == ""
    ensures ResolveBotKnowledgeBases(ctx, botId, a) == ResolveBotKnowledgeBases(ctx, botId, b)
    ensures ResolveBotKnowledgeBases(ctx, botId, a).Ok? ==> ResolveBotKnowledgeBases(ctx, botId, a).value == []
  {
  }

  // ---------------------------------------------------------------------
  // Search

  /** What the vector database returns for one point. */
  datatype Point = Point(chunkId: string, documentId: string, documentVersionId: string, kbId: string, score: real)

  /** The vector database's query: collection, vector, top-k, tenant,
      knowledge base and score threshold. */
  datatype PointQuery = PointQuery(collection: string, vector: seq<real>, topK: int, tenantId: string, kbId: string,
                                   threshold: real)

  function ResultOf(p: Point): SearchResult {
    SearchResult(p.chunkId, p.documentId, p.documentVersionId, p.kbId, p.score)
  }

  /** The copy loop of Search. */
  method CopyPoints(points: seq<Point>) returns (out: seq<SearchResult>)
    ensures |out| == |points|
    ensures forall i :: 0 <= i < |out| ==> out[i] == ResultOf(points[i])
  {
    out := [];
    var i := 0;
    while i < |points|
      invariant 0 <= i <= |points| && |out| == i
      invariant forall k :: 0 <= k < i ==> out[k] == ResultOf(points[k])
    {
      var p := points[i];
      out := out + [SearchResult(p.chunkId, p.documentId, p.documentVersionId, p.kbId, p.score)];
      i := i + 1;
    }
  }

  /** Search: the tenant is required, then a vector client; a blank
      knowledge base id finds nothing without asking the vector database;
      otherwise the points found in the repository's collection for the
      tenant and the trimmed id, field by field. */
  function Search(repo: RagRepo, ctx: Context, req: Pipeline.VectorSearchRequest,
                  points: PointQuery -> Result<seq<Point>>): (r: Result<seq<SearchResult>>)
    ensures RequireTenantID(ctx).Fail? ==> r == Fail(TenantMissing)
    ensures RequireTenantID(ctx).Ok? && !repo.hasVector ==> r == Fail(InternalServer("VECTORDB_MISSING"))
    ensures RequireTenantID(ctx).Ok? && repo.hasVector && TrimSpace(req.kbId) == "" ==> r == Ok([])
    ensures r.Ok? && TrimSpace(req.kbId) != "" ==>
      var q := PointQuery(repo.collection, req.vector, req.topK, RequireTenantID(ctx).value, TrimSpace(req.kbId), req.scoreThreshold);
      && points(q).Ok? && |r.value| == |points(q).value|
      && forall i :: 0 <= i < |r.value| ==> r.value[i] == ResultOf(points(q).value[i])
    ensures r.Fail? && RequireTenantID(ctx).Ok? && repo.hasVector ==>
      TrimSpace(req.kbId) != "" &&
      points(PointQuery(repo.collection, req.vector, req.topK, RequireTenantID(ctx).value, TrimSpace(req.kbId), req.scoreThreshold)).Fail?
  {
    var tenantId :- RequireTenantID(ctx);
    if !repo.hasVector then Fail(InternalServer("VECTORDB_MISSING"))
    else
      var kbId := TrimSpace(req.kbId);
      if kbId == "" then Ok([])
      else
        var found :- points(PointQuery(repo.collection, req.vector, req.topK, tenantId, kbId, req.scoreThreshold));
        Ok(seq(|found|, i requires 0 <= i < |found| => ResultOf(found[i])))
  }

  /** A blank knowledge base id never reaches the vector database. */
  lemma BlankKbSkipsVectorDb(repo: RagRepo, ctx: Context, req: Pipeline.VectorSearchRequest,
                             a: PointQuery -> Result<seq<Point>>, b: PointQuery -> Result<seq<Point>>)
    requires TrimSpace(req.kbId) == ""
    ensures Search(repo, ctx, req, a) == Search(repo, ctx, req, b)
  {
  }

  // ---------------------------------------------------------------------
  // buildChunkQuery

  /** The fixed text of the chunk query up to the tenant's placeholder. */
  const ChunkColumns := ["id", "kb_id", "document_id", "document_version_id", "content", "section", "page_no", "source_uri"]
  const ChunkFrom := "\n\t\tFROM doc_chunk"
  const TenantIs := " WHERE tenant_id = "
  const ChunkSelect := "SELECT " + Join(ChunkColumns, ", ") + ChunkFrom + TenantIs
  const ChunkIdIn := " AND id IN ("

  /** n placeholders. */
  function Marks(n: nat): seq<string> {
    seq(n, _ => "?")
  }

  /** The chunk query for n ids. */
  function ChunkQuery(n: nat): string {
    ChunkSelect + "?" + ChunkIdIn + Join(Marks(n), ",") + ")"
  }

  /** The number of '?' in a text. */
  function Placeholders(s: string): nat
    decreases |s|
  {
    if s == [] then 0 else (if s[0] == '?' then 1 else 0) + Placeholders(s[1..])
  }

  lemma {:induction false} PlaceholdersAppend(a: string, b: string)
    ensures Placeholders(a + b) == Placeholders(a) + Placeholders(b)
    decreases |a|
  {
    if a == [] {
      assert a + b == b;
    } else {
      assert (a + b)[0] == a[0];
      assert (a + b)[1..] == a[1..] + b;
      PlaceholdersAppend(a[1..], b);
    }
  }

  lemma {:induction false} PlaceholdersNone(s: string)
    requires '?' !in s
    ensures Placeholders(s) == 0
    decreases |s|
  {
    if s != [] {
      assert '?' !in s[1..];
      PlaceholdersNone(s[1..]);
    }
  }

  /** Joining n placeholders with commas leaves exactly n of them. */
  lemma {:induction false} PlaceholdersOfMarks(n: nat)
    ensures Placeholders(Join(Marks(n), ",")) == n
  {
    if n == 1 {
      assert Join(Marks(1), ",") == "?";
    } else if n > 1 {
      assert Marks(n)[1..] == Marks(n - 1);
      assert Join(Marks(n), ",") == "?" + "," + Join(Marks(n - 1), ",");
      PlaceholdersOfMarks(n - 1);
      PlaceholdersAppend("?", ",");
      PlaceholdersAppend("?" + ",", Join(Marks(n - 1), ","));
    }
  }

  /** The fixed parts of the query hold no placeholder of their own. */
  lemma FixedPartsUnmarked()
    ensures '?' !in ChunkSelect && '?' !in ChunkIdIn
  {
    ColumnsUnmarked();
    JoinKeepsOut(ChunkColumns, ", ", '?');
    var columns := Join(ChunkColumns, ", ");
    assert '?' !in "SELECT " + columns;
    assert '?' !in ChunkFrom + TenantIs;
    assert ChunkSelect == ("SELECT " + columns) + (ChunkFrom + TenantIs);
  }

  lemma ColumnsUnmarked()
    ensures forall k :: 0 <= k < |ChunkColumns| ==> '?' !in ChunkColumns[k]
  {
  }

  /** A query made of unmarked fixed parts, one placeholder between them
      and n joined placeholders holds n + 1 placeholders. */
  lemma {:induction false} FramedPlaceholders(head: string, mid: string, n: nat)
    requires '?' !in head && '?' !in mid
    ensures Placeholders(head + "?" + mid + Join(Marks(n), ",") + ")") == n + 1
  {
    PlaceholdersNone(head);
    PlaceholdersNone(mid);
    PlaceholdersNone(")");
    PlaceholdersOfMarks(n);
    PlaceholdersAppend(head, "?");
    PlaceholdersAppend(head + "?", mid);
    PlaceholdersAppend(head + "?" + mid, Join(Marks(n), ","));
    PlaceholdersAppend(head + "?" + mid + Join(Marks(n), ","), ")");
  }

  /** The query for n ids holds n + 1 placeholders: the tenant's and one
      per id. */
  lemma ChunkQueryPlaceholders(n: nat)
    ensures Placeholders(ChunkQuery(n)) == n + 1
  {
    FixedPartsUnmarked();
    FramedPlaceholders(ChunkSelect, ChunkIdIn, n);
  }

  /** buildChunkQuery: the arguments are the tenant followed by the ids in
      order, and the query holds one placeholder per argument. */
  method BuildChunkQuery(tenantId: string, chunkIds: seq<string>) returns (query: string, args: seq<string>)
    ensures args == [tenantId] + chunkIds
    ensures query == ChunkQuery(|chunkIds|)
    ensures Placeholders(query) == |args|
  {
    var placeholders: seq<string> := [];
    args := [tenantId];
    var i := 0;
    while i < |chunkIds|
      invariant 0 <= i <= |chunkIds|
      invariant placeholders == Marks(i)
      invariant args == [tenantId] + chunkIds[..i]
    {
      placeholders := placeholders + ["?"];
      args := args + [chunkIds[i]];
      i := i + 1;
      assert chunkIds[..i] == chunkIds[..i - 1] + [chunkIds[i - 1]];
    }
    assert chunkIds[..i] == chunkIds;
    query := ChunkSelect + "?" + ChunkIdIn + Join(placeholders, ",") + ")";
    ChunkQueryPlaceholders(|chunkIds|);
  }

  // ---------------------------------------------------------------------
  // LoadChunks

  /** The rows keyed by chunk id; a later row with the same id replaces an
      earlier one. */
  function ByChunkId(rows: seq<ChunkMeta>): (m: map<string, ChunkMeta>)
    ensures forall id :: id in m ==> m[id].chunkId == id && m[id] in rows
    ensures forall k :: 0 <= k < |rows| ==> rows[k].chunkId in m
    decreases |rows|
  {
    if rows == [] then map[]
    else
      var last := rows[|rows| - 1];
      ByChunkId(rows[..|rows| - 1])[last.chunkId := last]
  }

  /** The entry for an id is the last row with that id. */
  lemma {:induction false} ByChunkIdLast(rows: seq<ChunkMeta>, k: int)
    requires 0 <= k < |rows|
    requires forall j :: k < j < |rows| ==> rows[j].chunkId != rows[k].chunkId
    ensures ByChunkId(rows)[rows[k].chunkId] == rows[k]
    decreases |rows|
  {
    if k < |rows| - 1 {
      var init := rows[..|rows| - 1];
      assert init[k] == rows[k];
      forall j | k < j < |init| ensures init[j].chunkId != init[k].chunkId {
        assert init[j] == rows[j];
      }
      ByChunkIdLast(init, k);
    }
  }

  /** The scan loop of LoadChunks. */
  method KeyChunks(rows: seq<ChunkMeta>) returns (out: map<string, ChunkMeta>)
    ensures out == ByChunkId(rows)
  {
    out := map[];
    var i := 0;
    while i < |rows|
      invariant 0 <= i <= |rows|
      invariant out == ByChunkId(rows[..i])
    {
      var meta := rows[i];
      out := out[meta.chunkId := meta];
      i := i + 1;
      assert rows[..i][..i - 1] == rows[..i - 1];
    }
    assert rows[..i] == rows;
  }

  /** LoadChunks: the tenant is required; no ids means an empty map and no
      query; otherwise the rows the database returns for the chunk query
      and its arguments, keyed by chunk id. */
  function LoadChunks(ctx: Context, chunkIds: seq<string>, rows: (string, seq<string>) -> Result<seq<ChunkMeta>>)
    : (r: Result<map<string, ChunkMeta>>)
    ensures RequireTenantID(ctx).Fail? ==> r == Fail(TenantMissing)
    ensures RequireTenantID(ctx).Ok? && chunkIds == [] ==> r == Ok(map[])
    ensures RequireTenantID(ctx).Ok? && chunkIds != [] ==>
      var answer := rows(ChunkQuery(|chunkIds|), [RequireTenantID(ctx).value] + chunkIds);
      && (r.Fail? <==> answer.Fail?)
      && (r.Ok? ==> forall id :: id in r.value ==> r.value[id].chunkId == id && r.value[id] in answer.value)
      && (r.Ok? ==> forall k :: 0 <= k < |answer.value| ==> answer.value[k].chunkId in r.value)
  {
    var tenantId :- RequireTenantID(ctx);
    if chunkIds == [] then Ok(map[])
    else
      var found :- rows(ChunkQuery(|chunkIds|), [tenantId] + chunkIds);
      Ok(ByChunkId(found))
  }

  /** The repository's LoadChunks with the query built by its loop. */
  method LoadChunksFrom(ctx: Context, chunkIds: seq<string>, rows: (string, seq<string>) -> Result<seq<ChunkMeta>>)
    returns (r: Result<map<string, ChunkMeta>>)
    ensures r == LoadChunks(ctx, chunkIds, rows)
  {
    var tenant := RequireTenantID(ctx);
    if tenant.Fail? {
      return Fail(tenant.error);
    }
    if |chunkIds| == 0 {
      return Ok(map[]);
    }
    var query, args := BuildChunkQuery(tenant.value, chunkIds);
    var found := rows(query, args);
    if found.Fail? {
      return Fail(found.error);
    }
    var out := KeyChunks(found.value);
    return Ok(out);
  }
}
