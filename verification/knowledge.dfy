/** Knowledge bases, documents and their versions
    (apps/server/internal/knowledge/biz/knowledge.go), over an in-memory
    model of the knowledge repository: rows are keyed by tenant, and a
    document's versions by their number. Fresh ids, the clock, the queue's
    answer, the vector store and the parsers are parameters. */
module Knowledge {
  import opened Wrappers
  import opened Text
  import opened Contexts
  import opened Tenancy
  import opened Chunking
  import opened Parsing
  import opened Embedding

  const StatusProcessing := "processing"
  const StatusReady := "ready"
  const StatusFailed := "failed"

  const DefaultListLimit := 50
  const MaxListLimit := 200

  const KbNameMissing := BadRequest("KB_NAME_MISSING")
  const KbIdMissing := BadRequest("KB_ID_MISSING")
  const BotIdMissing := BadRequest("BOT_ID_MISSING")
  const DocIdMissing := BadRequest("DOC_ID_MISSING")
  const DocTitleMissing := BadRequest("DOC_TITLE_MISSING")
  const DocContentMissing := BadRequest("DOC_CONTENT_MISSING")
  const DocChunksEmpty := BadRequest("DOC_CHUNKS_EMPTY")
  const DocVersionInvalid := BadRequest("DOC_VERSION_INVALID")
  const DocVersionMissing := PreconditionFailed("DOC_VERSION_MISSING")
  const DocVersionNotReady := PreconditionFailed("DOC_VERSION_NOT_READY")
  /** tenantIDFromContext's error (the repository reports a missing tenant
      as the plain TenantMissing error instead). */
  const TenantForbidden := Forbidden("TENANT_MISSING")
  const KbNotFound := NotFound("KB_NOT_FOUND")
  const DocNotFound := NotFound("DOC_NOT_FOUND")
  const DocVersionNotFound := NotFound("DOC_VERSION_NOT_FOUND")
  const KbDuplicate := Conflict("KB_DUPLICATE")
  const DocVersionDuplicate := Conflict("DOC_VERSION_DUPLICATE")
  /** The database's answer to a second document row with the same id. */
  const DuplicateRow := Plain("duplicate entry")

  datatype KnowledgeBase = KnowledgeBase(id: string, tenantId: string, name: string, description: string)

  datatype BotKnowledgeBase = BotKnowledgeBase(id: string, tenantId: string, botId: string, kbId: string,
                                               priority: int, weight: real)

  datatype Document = Document(id: string, tenantId: string, kbId: string, title: string, sourceType: string,
                               status: string, currentVersion: int)

  datatype DocumentVersion = DocumentVersion(id: string, tenantId: string, documentId: string, version: int,
                                             rawText: string, status: string, errorReason: string)

  datatype IngestionJob = IngestionJob(tenantId: string, kbId: string, documentId: string,
                                       documentVersionId: string, fallbackVersion: int)

  datatype IndexRequest = IndexRequest(kbId: string, documentId: string, documentVersionId: string,
                                       documentTitle: string, sourceType: string, embeddingModel: string,
                                       embeddingDim: int, chunks: seq<EmbeddedChunk>)

  /** Chunking and embedding settings of the use case. */
  datatype IngestionConfig = IngestionConfig(chunkSizeTokens: int, chunkOverlapTokens: int, batchSize: int)

  /** What processIngestion calls out to: the URL and .docx parsers, the
      chunk id and content hash, the embedding endpoint and generator, and
      the vector store's IndexDocumentVersion. */
  datatype Services = Services(
    fetchUrl: string -> Result<string>, parseDocx: string -> Result<string>,
    chunkId: (string, int) -> string, hash: string -> string,
    remote: Remote, draw: (string, nat) -> real, index: IndexRequest -> Outcome)

  /** The text an error carries into a version's error_message: its
      reason, or its name for a plain error (an error here has no message
      part, so the full Error() string is not modelled). */
  function ErrorText(e: Error): string {
    match e
    case Kratos(_, reason) => reason
    case Plain(name) => name
  }

  // ------------------------------------------------------------ requests

  /** ListDocuments: the kb id is trimmed, a limit outside 1..200 becomes
      50 and a negative offset 0. */
  function ListDocumentsQuery(kbId: string, limit: int, offset: int): (q: (string, int, int))
    ensures q.0 == TrimSpace(kbId)
    ensures 1 <= q.1 <= MaxListLimit && q.2 >= 0
    ensures 1 <= limit <= MaxListLimit ==> q.1 == limit
    ensures !(1 <= limit <= MaxListLimit) ==> q.1 == DefaultListLimit
    ensures offset >= 0 ==> q.2 == offset
    ensures offset < 0 ==> q.2 == 0
  {
    (TrimSpace(kbId), if limit <= 0 || limit > MaxListLimit then DefaultListLimit else limit, if offset < 0 then 0 else offset)
  }

  /** A query already clamped is its own clamp. */
  lemma ListDocumentsQueryIdempotent(kbId: string, limit: int, offset: int)
    ensures var q := ListDocumentsQuery(kbId, limit, offset);
      ListDocumentsQuery(q.0, q.1, q.2) == q
  {
    TrimSpaceIdempotent(kbId);
  }

  /** UploadDocument's checks, in order, on the trimmed kb id, title and
      content; the source type is normalized. */
  function UploadInput(kbId: string, title: string, sourceType: string, content: string): (r: Result<(string, string, string, string)>)
    ensures TrimSpace(kbId) == "" ==> r == Fail(KbIdMissing)
    ensures TrimSpace(kbId) != "" && TrimSpace(title) == "" ==> r == Fail(DocTitleMissing)
    ensures TrimSpace(kbId) != "" && TrimSpace(title) != "" && TrimSpace(content) == "" ==> r == Fail(DocContentMissing)
    ensures r.Ok? <==> TrimSpace(kbId) != "" && TrimSpace(title) != "" && TrimSpace(content) != ""
    ensures r.Ok? ==> r.value == (TrimSpace(kbId), TrimSpace(title), NormalizeSourceType(sourceType), TrimSpace(content))
  {
    var kb := TrimSpace(kbId);
    var t := TrimSpace(title);
    var st := NormalizeSourceType(sourceType);
    var c := TrimSpace(content);
    if kb == "" then Fail(KbIdMissing)
    else if t == "" then Fail(DocTitleMissing)
    else if c == "" then Fail(DocContentMissing)
    else Ok((kb, t, st, c))
  }

  /** The id of GetDocument, DeleteDocument, ReindexDocument and
      RollbackDocument: trimmed and required. */
  function DocumentIdInput(id: string): (r: Result<string>)
    ensures r.Fail? <==> TrimSpace(id) == ""
    ensures r.Fail? ==> r.error == DocIdMissing
    ensures r.Ok? ==> r.value == TrimSpace(id)
  {
    if TrimSpace(id) == "" then Fail(DocIdMissing) else Ok(TrimSpace(id))
  }

  /** UpdateKnowledgeBase's checks: the id is required, and so is a new
      name or description. */
  function UpdateKnowledgeBaseInput(kb: KnowledgeBase): (r: Result<KnowledgeBase>)
    ensures TrimSpace(kb.id) == "" ==> r == Fail(KbIdMissing)
    ensures r.Ok? <==> TrimSpace(kb.id) != "" && (TrimSpace(kb.name) != "" || TrimSpace(kb.description) != "")
    ensures r.Fail? && TrimSpace(kb.id) != "" ==> r.error == BadRequest("KB_UPDATE_EMPTY")
    ensures r.Ok? ==> r.value == kb.(id := TrimSpace(kb.id), name := TrimSpace(kb.name))
  {
    var id := TrimSpace(kb.id);
    var name := TrimSpace(kb.name);
    if id == "" then Fail(KbIdMissing)
    else if name == "" && TrimSpace(kb.description) == "" then Fail(BadRequest("KB_UPDATE_EMPTY"))
    else Ok(kb.(id := id, name := name))
  }

  /** BindBotKnowledgeBase's checks: both ids trimmed and required; a weight
      that is not positive becomes 1. */
  function BindInput(botId: string, kbId: string, weight: real): (r: Result<(string, string, real)>)
    ensures TrimSpace(botId) == "" ==> r == Fail(BotIdMissing)
    ensures TrimSpace(botId) != "" && TrimSpace(kbId) == "" ==> r == Fail(KbIdMissing)
    ensures r.Ok? <==> TrimSpace(botId) != "" && TrimSpace(kbId) != ""
    ensures r.Ok? ==> r.value.0 == TrimSpace(botId) && r.value.1 == TrimSpace(kbId) && r.value.2 > 0.0
    ensures r.Ok? && weight > 0.0 ==> r.value.2 == weight
    ensures r.Ok? && weight <= 0.0 ==> r.value.2 == 1.0
  {
    var bot := TrimSpace(botId);
    var kb := TrimSpace(kbId);
    if bot == "" then Fail(BotIdMissing)
    else if kb == "" then Fail(KbIdMissing)
    else Ok((bot, kb, if weight <= 0.0 then 1.0 else weight))
  }

  // ------------------------------------------------------------ ingestion

  /** What one ingestion does once the version and document are loaded. */
  datatype IngestStep =
    | Halt(error: Error)           // returns the error; nothing is written
    | MarkFailed(error: Error)     // version and document marked `failed`
    | Index(req: IndexRequest)     // indexed; version and document `ready`

  datatype Ingestion = Ingestion(step: IngestStep, embedder: Option<Provider>)

  /** The chunks buildChunks makes of `content` for a version. */
  function ChunksFor(content: string, versionId: string, cfg: IngestionConfig, svc: Services, now: int): seq<DocChunk> {
    var size := ClampInt(cfg.chunkSizeTokens, 1, MaxChunkSize);
    ChunksOf(SplitText(content, size, ClampInt(cfg.chunkOverlapTokens, 0, size - 1)), versionId, svc.chunkId, svc.hash, now)
  }

  /** The request that indexes `version` with the embedder's chunks. */
  function IndexRequestFor(job: IngestionJob, version: DocumentVersion, doc: Document, p: Provider, chunks: seq<EmbeddedChunk>): IndexRequest {
    IndexRequest(job.kbId, job.documentId, version.id, doc.title, NormalizeSourceType(doc.sourceType), Model(p), Dim(p), chunks)
  }

  /** processIngestion after the loads: a parse failure or an index failure
      marks the version and the document failed; empty content, no chunks
      or an embedding failure only return the error; otherwise the version
      is indexed with every chunk, in order, and the embedder's model and
      dimension. */
  function Ingest(job: IngestionJob, version: DocumentVersion, doc: Document, embedder: Option<Provider>,
                  cfg: IngestionConfig, svc: Services, now: int): (r: Ingestion)
  {
    var st := NormalizeSourceType(doc.sourceType);
    var parsed := ParseContent(st, version.rawText, svc.fetchUrl, svc.parseDocx);
    if parsed.Fail? then Ingestion(MarkFailed(parsed.error), embedder)
    else
      var content := PreparedText(st, parsed.value);
      if content == "" then Ingestion(Halt(DocContentMissing), embedder)
      else
        var chunks := ChunksFor(content, version.id, cfg, svc, now);
        if chunks == [] then Ingestion(Halt(DocChunksEmpty), embedder)
        else
          var (run, after) := Embedding.EmbedChunks(embedder, chunks, cfg.batchSize, svc.remote, svc.draw);
          if run.result.Fail? then Ingestion(Halt(run.result.error), after)
          else
            var req := IndexRequestFor(job, version, doc, run.provider, run.result.value);
            match svc.index(req)
            case Failed(e) => Ingestion(MarkFailed(e), after)
            case Pass => Ingestion(Index(req), after)
  }

  /** Before any chunk is embedded: a parse failure marks the version
      failed, and empty content or no chunks halt; none of them touch the
      embedder. */
  lemma IngestEarlyExits(job: IngestionJob, version: DocumentVersion, doc: Document, embedder: Option<Provider>,
                         cfg: IngestionConfig, svc: Services, now: int)
    ensures var r := Ingest(job, version, doc, embedder, cfg, svc, now);
      var st := NormalizeSourceType(doc.sourceType);
      var parsed := ParseContent(st, version.rawText, svc.fetchUrl, svc.parseDocx);
      (parsed.Fail? ==> r == Ingestion(MarkFailed(parsed.error), embedder)) &&
      (parsed.Ok? && PreparedText(st, parsed.value) == "" ==> r == Ingestion(Halt(DocContentMissing), embedder)) &&
      (parsed.Ok? && PreparedText(st, parsed.value) != "" && ChunksFor(PreparedText(st, parsed.value), version.id, cfg, svc, now) == [] ==>
         r == Ingestion(Halt(DocChunksEmpty), embedder))
  {
  }

  /** An indexed version carries every chunk of its prepared text, in
      order, with the model and dimension of the embedder the use case is
      left with, and the vector store accepted that request. */
  lemma {:induction false} IngestIndexed(job: IngestionJob, version: DocumentVersion, doc: Document, embedder: Option<Provider>,
                                         cfg: IngestionConfig, svc: Services, now: int)
    requires Ingest(job, version, doc, embedder, cfg, svc, now).step.Index?
    ensures var r := Ingest(job, version, doc, embedder, cfg, svc, now);
      var st := NormalizeSourceType(doc.sourceType);
      var parsed := ParseContent(st, version.rawText, svc.fetchUrl, svc.parseDocx);
      parsed.Ok? &&
      var chunks := ChunksFor(PreparedText(st, parsed.value), version.id, cfg, svc, now);
      |r.step.req.chunks| == |chunks| > 0 &&
      (forall i :: 0 <= i < |chunks| ==> r.step.req.chunks[i].chunk == chunks[i]) &&
      r.embedder.Some? && r.step.req == IndexRequestFor(job, version, doc, r.embedder.value, r.step.req.chunks) &&
      svc.index(r.step.req) == Pass
  {
  }

  /** A failure marked after parsing succeeded is the vector store refusing
      the index request. */
  lemma IngestIndexRefused(job: IngestionJob, version: DocumentVersion, doc: Document, embedder: Option<Provider>,
                           cfg: IngestionConfig, svc: Services, now: int)
    requires Ingest(job, version, doc, embedder, cfg, svc, now).step.MarkFailed?
    requires ParseContent(NormalizeSourceType(doc.sourceType), version.rawText, svc.fetchUrl, svc.parseDocx).Ok?
    ensures var r := Ingest(job, version, doc, embedder, cfg, svc, now);
      r.embedder.Some? &&
      exists chunks :: svc.index(IndexRequestFor(job, version, doc, r.embedder.value, chunks)) == Failed(r.step.error)
  {
    var st := NormalizeSourceType(doc.sourceType);
    var parsed := ParseContent(st, version.rawText, svc.fetchUrl, svc.parseDocx);
    var chunks := ChunksFor(PreparedText(st, parsed.value), version.id, cfg, svc, now);
    var (run, after) := Embedding.EmbedChunks(embedder, chunks, cfg.batchSize, svc.remote, svc.draw);
    var req := IndexRequestFor(job, version, doc, run.provider, run.result.value);
    assert svc.index(req) == Failed(Ingest(job, version, doc, embedder, cfg, svc, now).step.error);
  }

  // ------------------------------------------------------------ store invariants

  /** Documents sit under their own tenant and id. */
  ghost predicate DocumentsValid(documents: map<(string, string), Document>) {
    forall t, id :: (t, id) in documents ==> documents[(t, id)].tenantId == t && documents[(t, id)].id == id
  }

  /** Versions sit under their tenant, document and number (from 1 on),
      and the version-id index and the versions agree. */
  ghost predicate VersionsValid(versions: map<(string, string, int), DocumentVersion>, versionIds: map<(string, string), (string, int)>) {
    (forall t, d, n :: (t, d, n) in versions ==>
       versions[(t, d, n)].tenantId == t && versions[(t, d, n)].documentId == d && versions[(t, d, n)].version == n && n >= 1 &&
       (t, versions[(t, d, n)].id) in versionIds && versionIds[(t, versions[(t, d, n)].id)] == (d, n)) &&
    (forall t, id :: (t, id) in versionIds ==>
       (t, versionIds[(t, id)].0, versionIds[(t, id)].1) in versions &&
       versions[(t, versionIds[(t, id)].0, versionIds[(t, id)].1)].id == id)
  }

  /** The version a version id leads to carries that id, under the key it
      was found at. */
  lemma VersionLocated(versions: map<(string, string, int), DocumentVersion>, versionIds: map<(string, string), (string, int)>,
                       t: string, id: string)
    requires VersionsValid(versions, versionIds) && (t, id) in versionIds
    ensures var loc := versionIds[(t, id)];
      var v := versions[(t, loc.0, loc.1)];
      (t, loc.0, loc.1) in versions && (t, loc.0, loc.1) == (v.tenantId, v.documentId, v.version) && v.id == id
  {
    var (d, n) := versionIds[(t, id)];
    assert (t, d, n) in versions;
  }

  /** A version found by number is indexed by its id. */
  lemma VersionLocatedByNumber(versions: map<(string, string, int), DocumentVersion>, versionIds: map<(string, string), (string, int)>,
                               t: string, d: string, n: int)
    requires VersionsValid(versions, versionIds) && (t, d, n) in versions
    ensures (t, versions[(t, d, n)].id) in versionIds && versionIds[(t, versions[(t, d, n)].id)] == (d, n)
  {
  }

  /** Every document points at no version (0) or at a `ready` one. */
  ghost predicate CurrentReadyIn(documents: map<(string, string), Document>, versions: map<(string, string, int), DocumentVersion>) {
    forall t, id :: (t, id) in documents && documents[(t, id)].currentVersion != 0 ==>
      (t, id, documents[(t, id)].currentVersion) in versions &&
      versions[(t, id, documents[(t, id)].currentVersion)].status == StatusReady
  }

  /** Writing a document row whose current version is none or ready keeps
      every document pointing at a ready version. */
  lemma DocumentWriteKeepsReady(documents: map<(string, string), Document>,
                                versions: map<(string, string, int), DocumentVersion>, doc: Document)
    requires CurrentReadyIn(documents, versions)
    requires doc.currentVersion == 0 ||
      ((doc.tenantId, doc.id, doc.currentVersion) in versions &&
       versions[(doc.tenantId, doc.id, doc.currentVersion)].status == StatusReady)
    ensures CurrentReadyIn(documents[(doc.tenantId, doc.id) := doc], versions)
  {
  }

  /** A job as UploadDocument and ReindexDocument build them: its fallback
      is no version, or a `ready` version of its document other than the one
      to ingest; and the version to ingest belongs to its document. */
  predicate JobSoundIn(job: IngestionJob, versions: map<(string, string, int), DocumentVersion>, versionIds: map<(string, string), (string, int)>) {
    (job.fallbackVersion != 0 ==>
       (job.tenantId, job.documentId, job.fallbackVersion) in versions &&
       versions[(job.tenantId, job.documentId, job.fallbackVersion)].status == StatusReady &&
       versions[(job.tenantId, job.documentId, job.fallbackVersion)].id != job.documentVersionId) &&
    ((job.tenantId, job.documentVersionId) in versionIds ==> versionIds[(job.tenantId, job.documentVersionId)].0 == job.documentId)
  }

  /** The two writes at the end of processIngestion (version status, then
      document status and current version) keep the store well formed; and
      for a sound job, marking failure with the fallback or success with the
      ingested version keeps every document pointing at a ready version. */
  lemma StatusUpdateKeeps(job: IngestionJob, documents: map<(string, string), Document>,
                          versions: map<(string, string, int), DocumentVersion>, versionIds: map<(string, string), (string, int)>,
                          status: string, reason: string, current: int)
    requires DocumentsValid(documents) && VersionsValid(versions, versionIds)
    requires (job.tenantId, job.documentVersionId) in versionIds && (job.tenantId, job.documentId) in documents
    requires status == StatusFailed || status == StatusReady
    requires status == StatusFailed ==> current == job.fallbackVersion
    requires status == StatusReady ==> current == versionIds[(job.tenantId, job.documentVersionId)].1
    ensures var loc := versionIds[(job.tenantId, job.documentVersionId)];
      var vkey := (job.tenantId, loc.0, loc.1);
      var dkey := (job.tenantId, job.documentId);
      vkey in versions &&
      var documents' := documents[dkey := documents[dkey].(status := status, currentVersion := current)];
      var versions' := versions[vkey := versions[vkey].(status := status, errorReason := reason)];
      DocumentsValid(documents') && VersionsValid(versions', versionIds) &&
      (CurrentReadyIn(documents, versions) && JobSoundIn(job, versions, versionIds) ==> CurrentReadyIn(documents', versions'))
  {
    var loc := versionIds[(job.tenantId, job.documentVersionId)];
    var vkey := (job.tenantId, loc.0, loc.1);
    var dkey := (job.tenantId, job.documentId);
    var documents' := documents[dkey := documents[dkey].(status := status, currentVersion := current)];
    var versions' := versions[vkey := versions[vkey].(status := status, errorReason := reason)];
    if CurrentReadyIn(documents, versions) && JobSoundIn(job, versions, versionIds) {
      forall t, id | (t, id) in documents' && documents'[(t, id)].currentVersion != 0
        ensures (t, id, documents'[(t, id)].currentVersion) in versions'
        ensures versions'[(t, id, documents'[(t, id)].currentVersion)].status == StatusReady
      {
        if (t, id) == dkey {
          if status == StatusFailed {
            assert versions[(t, id, current)].id != versions[vkey].id;
          }
        } else {
          assert (t, id, documents[(t, id)].currentVersion) != vkey;
        }
      }
    }
  }

  /** A document as UploadDocument creates it: processing, at no version. */
  function NewDocument(id: string, t: string, kbId: string, title: string, sourceType: string): Document {
    Document(id, t, kbId, title, sourceType, StatusProcessing, 0)
  }

  /** A version as UploadDocument and ReindexDocument create it. */
  function NewVersion(id: string, t: string, documentId: string, n: int, rawText: string): DocumentVersion {
    DocumentVersion(id, t, documentId, n, rawText, StatusProcessing, "")
  }

  /** The ingestion job for a freshly created version. */
  function JobFor(doc: Document, ver: DocumentVersion, fallback: int): IngestionJob {
    IngestionJob(ver.tenantId, doc.kbId, doc.id, ver.id, fallback)
  }

  // ------------------------------------------------------------ use case

  class KnowledgeUsecase {
    const cfg: IngestionConfig
    /** Jobs are enqueued only when a queue is set and async ingestion is
        switched on. */
    const asyncEnabled: bool
    var embedder: Option<Provider>
    var kbs: map<(string, string), KnowledgeBase>
    var documents: map<(string, string), Document>
    /** Versions under (tenant, document, number). */
    var versions: map<(string, string, int), DocumentVersion>
    /** Where each version id lives: (tenant, id) to (document, number). */
    var versionIds: map<(string, string), (string, int)>
    var bindings: seq<BotKnowledgeBase>
    /** The jobs handed to the queue, in order. */
    var queued: seq<IngestionJob>
    /** The requests the vector store accepted, in order. */
    var indexed: seq<IndexRequest>

    /** Rows sit under their own tenant and id; version numbers start at 1;
        the version-id index and the versions agree. */
    ghost predicate Valid()
      reads this`kbs, this`documents, this`versions, this`versionIds
    {
      (forall t, id :: (t, id) in kbs ==> kbs[(t, id)].tenantId == t && kbs[(t, id)].id == id) &&
      DocumentsValid(documents) && VersionsValid(versions, versionIds)
    }

    ghost predicate CurrentReady()
      reads this`documents, this`versions
    {
      CurrentReadyIn(documents, versions)
    }

    predicate JobSound(job: IngestionJob)
      reads this`versions, this`versionIds
    {
      JobSoundIn(job, versions, versionIds)
    }

    function KbRow(t: string, id: string): (r: Result<KnowledgeBase>)
      reads this`kbs
      ensures r.Ok? <==> (t, id) in kbs
      ensures r.Ok? ==> r.value == kbs[(t, id)]
      ensures r.Fail? ==> r.error == KbNotFound
    {
      if (t, id) in kbs then Ok(kbs[(t, id)]) else Fail(KbNotFound)
    }

    function DocumentRow(t: string, id: string): (r: Result<Document>)
      reads this`documents
      ensures r.Ok? <==> (t, id) in documents
      ensures r.Ok? ==> r.value == documents[(t, id)]
      ensures r.Fail? ==> r.error == DocNotFound
    {
      if (t, id) in documents then Ok(documents[(t, id)]) else Fail(DocNotFound)
    }

    /** GetDocumentVersion: by id. */
    function VersionRow(t: string, id: string): (r: Result<DocumentVersion>)
      reads this`kbs, this`documents, this`versions, this`versionIds
      ensures r.Ok? ==>
        (t, id) in versionIds && (t, versionIds[(t, id)].0, versionIds[(t, id)].1) in versions &&
        r.value == versions[(t, versionIds[(t, id)].0, versionIds[(t, id)].1)]
      ensures r.Fail? ==> r.error == DocVersionNotFound
      ensures Valid() ==> (r.Ok? <==> (t, id) in versionIds)
    {
      if (t, id) in versionIds && (t, versionIds[(t, id)].0, versionIds[(t, id)].1) in versions
      then Ok(versions[(t, versionIds[(t, id)].0, versionIds[(t, id)].1)])
      else Fail(DocVersionNotFound)
    }

    /** GetDocumentVersionByNumber. */
    function VersionByNumber(t: string, documentId: string, n: int): (r: Result<DocumentVersion>)
      reads this`versions
      ensures r.Ok? <==> (t, documentId, n) in versions
      ensures r.Ok? ==> r.value == versions[(t, documentId, n)]
      ensures r.Fail? ==> r.error == DocVersionNotFound
    {
      if (t, documentId, n) in versions then Ok(versions[(t, documentId, n)]) else Fail(DocVersionNotFound)
    }

    /** The store after an ingestion step, given the store before. */
    predicate Applied(job: IngestionJob, step: IngestStep, version: DocumentVersion,
                      documentsBefore: map<(string, string), Document>,
                      versionsBefore: map<(string, string, int), DocumentVersion>, indexedBefore: seq<IndexRequest>)
      reads this`documents, this`versions, this`indexed
    {
      var vkey := (version.tenantId, version.documentId, version.version);
      var dkey := (job.tenantId, job.documentId);
      dkey in documentsBefore &&
      match step
      case Halt(_) =>
        documents == documentsBefore && versions == versionsBefore && indexed == indexedBefore
      case MarkFailed(e) =>
        versions == versionsBefore[vkey := version.(status := StatusFailed, errorReason := ErrorText(e))] &&
        documents == documentsBefore[dkey := documentsBefore[dkey].(status := StatusFailed, currentVersion := job.fallbackVersion)] &&
        indexed == indexedBefore
      case Index(req) =>
        versions == versionsBefore[vkey := version.(status := StatusReady, errorReason := "")] &&
        documents == documentsBefore[dkey := documentsBefore[dkey].(status := StatusReady, currentVersion := version.version)] &&
        indexed == indexedBefore + [req]
    }

    constructor (cfg: IngestionConfig, embedder: Option<Provider>, queuePresent: bool, asyncConfigured: bool)
      ensures Valid() && CurrentReady()
      ensures this.cfg == cfg && this.embedder == embedder && asyncEnabled == (queuePresent && asyncConfigured)
      ensures kbs == map[] && documents == map[] && versions == map[] && versionIds == map[]
      ensures bindings == [] && queued == [] && indexed == []
    {
      this.cfg := cfg;
      this.embedder := embedder;
      asyncEnabled := queuePresent && asyncConfigured;
      kbs := map[];
      documents := map[];
      versions := map[];
      versionIds := map[];
      bindings := [];
      queued := [];
      indexed := [];
    }

    /** embedChunks: the batch loop, with the embedder the use case keeps
        (a missing one becomes the fake provider, and the HTTP one may learn
        its dimension). */
    method EmbedChunks(chunks: seq<DocChunk>, remote: Remote, draw: (string, nat) -> real) returns (r: Result<seq<EmbeddedChunk>>)
      modifies this`embedder
      ensures var spec := Embedding.EmbedChunks(old(embedder), chunks, cfg.batchSize, remote, draw);
        r == spec.0.result && embedder == spec.1
    {
      if |chunks| == 0 {
        return Ok([]);
      }
      if embedder.None? {
        embedder := Some(FakeProvider(DefaultEmbeddingModel, DefaultEmbeddingDim));
      }
      var size := BatchSize(cfg.batchSize);
      ghost var whole := EmbedFrom(embedder.value, chunks, 0, size, remote, draw);
      ghost var calls: seq<seq<string>> := [];
      var out: seq<EmbeddedChunk> := [];
      var start := 0;
      assert calls + whole.calls == whole.calls;
      assert whole.result.Ok? ==> out + whole.result.value == whole.result.value;
      while start < |chunks|
        invariant 0 <= start <= |chunks| && embedder.Some?
        invariant whole == Resume(out, calls, EmbedFrom(embedder.value, chunks, start, size, remote, draw))
        decreases |chunks| - start
      {
        var end := if start + size > |chunks| then |chunks| else start + size;
        var texts := Contents(chunks[start..end]);
        EmbedFromStep(embedder.value, chunks, start, size, remote, draw, out, calls);
        var (vectors, after) := Embed(embedder.value, texts, remote, draw);
        embedder := Some(after);
        if vectors.Fail? {
          return Fail(vectors.error);
        }
        if |vectors.value| != |texts| {
          return Fail(CountMismatch);
        }
        out := out + Pair(chunks[start..end], vectors.value);
        calls := calls + [texts];
        start := end;
      }
      assert out + [] == out;
      r := Ok(out);
    }

    /** processIngestion's loads: a job without a tenant is forbidden;
        then the version and the document, under the job's tenant. */
    function JobRows(job: IngestionJob): (r: Result<(DocumentVersion, Document)>)
      reads this`kbs, this`documents, this`versions, this`versionIds
      ensures job.tenantId == "" ==> r == Fail(TenantForbidden)
      ensures job.tenantId != "" && VersionRow(job.tenantId, job.documentVersionId).Fail? ==>
        r == Fail(VersionRow(job.tenantId, job.documentVersionId).error)
      ensures r.Ok? <==>
        job.tenantId != "" && VersionRow(job.tenantId, job.documentVersionId).Ok? && (job.tenantId, job.documentId) in documents
      ensures r.Ok? ==>
        VersionRow(job.tenantId, job.documentVersionId) == Ok(r.value.0) && DocumentRow(job.tenantId, job.documentId) == Ok(r.value.1)
    {
      if job.tenantId == "" then Fail(TenantForbidden)
      else
        var v :- VersionRow(job.tenantId, job.documentVersionId);
        var d :- DocumentRow(job.tenantId, job.documentId);
        Ok((v, d))
    }

    /** processIngestion: after the loads, the step Ingest decides is
        applied to the store. A sound job keeps every document pointing at
        a ready version. */
    method ProcessIngestion(job: IngestionJob, svc: Services, now: int) returns (out: Outcome)
      requires Valid()
      modifies this`embedder, this`documents, this`versions, this`indexed
      ensures Valid()
      ensures var rows := old(JobRows(job));
        (rows.Fail? ==> out == Failed(rows.error) && unchanged(this`documents, this`versions, this`indexed, this`embedder)) &&
        (rows.Ok? ==>
           var g := Ingest(job, rows.value.0, rows.value.1, old(embedder), cfg, svc, now);
           embedder == g.embedder && Applied(job, g.step, rows.value.0, old(documents), old(versions), old(indexed)) &&
           out == (if g.step.Index? then Pass else Failed(g.step.error)))
      ensures old(CurrentReady()) && old(JobSound(job)) ==> CurrentReady()
    {
      var rows := JobRows(job);
      if rows.Fail? {
        return Failed(rows.error);
      }
      out := IngestLoaded(job, rows.value.0, rows.value.1, svc, now);
    }

    /** The part of processIngestion after both loads succeeded. */
    method IngestLoaded(job: IngestionJob, version: DocumentVersion, doc: Document, svc: Services, now: int)
      returns (out: Outcome)
      requires Valid()
      requires VersionRow(job.tenantId, job.documentVersionId) == Ok(version)
      requires DocumentRow(job.tenantId, job.documentId) == Ok(doc)
      modifies this`embedder, this`documents, this`versions, this`indexed
      ensures Valid()
      ensures var g := Ingest(job, version, doc, old(embedder), cfg, svc, now);
        embedder == g.embedder && Applied(job, g.step, version, old(documents), old(versions), old(indexed)) &&
        out == (if g.step.Index? then Pass else Failed(g.step.error))
      ensures old(CurrentReady()) && old(JobSound(job)) ==> CurrentReady()
    {
      var step := IngestStepFor(job, version, doc, svc, now);
      ApplyStep(job, step, version);
      out := if step.Index? then Pass else Failed(step.error);
    }

    /** The status writes at the end of processIngestion: nothing for a step
        that stops early; the version and the document marked failed (the
        document falling back to the job's fallback version); or both marked
        ready, the document now at the ingested version, and the request
        indexed. */
    method ApplyStep(job: IngestionJob, step: IngestStep, version: DocumentVersion)
      requires Valid()
      requires VersionRow(job.tenantId, job.documentVersionId) == Ok(version)
      requires (job.tenantId, job.documentId) in documents
      modifies this`documents, this`versions, this`indexed
      ensures Valid()
      ensures Applied(job, step, version, old(documents), old(versions), old(indexed))
      ensures old(CurrentReady()) && old(JobSound(job)) ==> CurrentReady()
    {
      var t := job.tenantId;
      var loc := versionIds[(t, job.documentVersionId)];
      var vkey := (t, loc.0, loc.1);
      var dkey := (t, job.documentId);
      VersionLocated(versions, versionIds, t, job.documentVersionId);
      var doc := documents[dkey];
      match step
      case Halt(e) =>
      case MarkFailed(e) =>
        StatusUpdateKeeps(job, documents, versions, versionIds, StatusFailed, ErrorText(e), job.fallbackVersion);
        versions := versions[vkey := version.(status := StatusFailed, errorReason := ErrorText(e))];
        documents := documents[dkey := doc.(status := StatusFailed, currentVersion := job.fallbackVersion)];
      case Index(req) =>
        StatusUpdateKeeps(job, documents, versions, versionIds, StatusReady, "", version.version);
        versions := versions[vkey := version.(status := StatusReady, errorReason := "")];
        documents := documents[dkey := doc.(status := StatusReady, currentVersion := version.version)];
        indexed := indexed + [req];
    }

    /** The pipeline of processIngestion between the loads and the status
        writes: parse, prepare, chunk, embed, index. */
    method IngestStepFor(job: IngestionJob, version: DocumentVersion, doc: Document, svc: Services, now: int)
      returns (step: IngestStep)
      modifies this`embedder
      ensures Ingestion(step, embedder) == Ingest(job, version, doc, old(embedder), cfg, svc, now)
    {
      var st := NormalizeSourceType(doc.sourceType);
      var parsed := ParseContent(st, version.rawText, svc.fetchUrl, svc.parseDocx);
      if parsed.Fail? {
        return MarkFailed(parsed.error);
      }
      var content := PrepareContentNormalized(st, parsed.value);
      if content == "" {
        return Halt(DocContentMissing);
      }
      var chunks := BuildChunks(content, version.id, cfg.chunkSizeTokens, cfg.chunkOverlapTokens, svc.chunkId, svc.hash, now);
      if |chunks| == 0 {
        return Halt(DocChunksEmpty);
      }
      var embedded := EmbedChunks(chunks, svc.remote, svc.draw);
      if embedded.Fail? {
        return Halt(embedded.error);
      }
      var req := IndexRequestFor(job, version, doc, embedder.value, embedded.value);
      match svc.index(req)
      case Failed(e) =>
        step := MarkFailed(e);
      case Pass =>
        step := Index(req);
    }

    /** Whether CreateDocumentVersion would hit the unique keys: the same
        document and number, or the same id, under the version's tenant. */
    predicate VersionTaken(ver: DocumentVersion)
      reads this`versions, this`versionIds
    {
      (ver.tenantId, ver.documentId, ver.version) in versions || (ver.tenantId, ver.id) in versionIds
    }

    /** UploadDocument up to its two inserts: the checked input, the tenant
        (every repository call needs one), the knowledge base, and the rows
        to insert; a document id already in use is the database's
        duplicate-entry error. */
    function UploadRows(ctx: Context, kbId: string, title: string, sourceType: string, content: string,
                        docId: string, versionId: string): (r: Result<(Document, DocumentVersion)>)
      reads this`kbs, this`documents
      ensures UploadInput(kbId, title, sourceType, content).Fail? ==> r == Fail(UploadInput(kbId, title, sourceType, content).error)
      ensures UploadInput(kbId, title, sourceType, content).Ok? && RequireTenantID(ctx).Fail? ==> r == Fail(TenantMissing)
      ensures r.Ok? <==>
        UploadInput(kbId, title, sourceType, content).Ok? && RequireTenantID(ctx).Ok? &&
        (RequireTenantID(ctx).value, TrimSpace(kbId)) in kbs && (RequireTenantID(ctx).value, docId) !in documents
      ensures r.Ok? ==>
        var (doc, ver) := r.value;
        doc.id == docId && doc.tenantId == RequireTenantID(ctx).value != "" && doc.kbId == TrimSpace(kbId) &&
        doc.title == TrimSpace(title) && doc.sourceType == NormalizeSourceType(sourceType) &&
        doc.status == StatusProcessing && doc.currentVersion == 0 &&
        ver.id == versionId && ver.tenantId == doc.tenantId && ver.documentId == docId && ver.version == 1 &&
        ver.rawText == TrimSpace(content) != "" && ver.status == StatusProcessing && ver.errorReason == ""
    {
      var (kb, t, st, c) :- UploadInput(kbId, title, sourceType, content);
      var tenant :- RequireTenantID(ctx);
      var _ :- KbRow(tenant, kb);
      if (tenant, docId) in documents then Fail(DuplicateRow)
      else Ok((NewDocument(docId, tenant, kb, t, st), NewVersion(versionId, tenant, docId, 1, c)))
    }

    /** ReindexDocument up to its insert: the checked id, the tenant, the
        document, its current version (none is a failed precondition), and
        the next version: number current + 1, the current version's text. */
    function ReindexRows(ctx: Context, id: string, versionId: string): (r: Result<(Document, DocumentVersion)>)
      reads this`documents, this`versions
      ensures TrimSpace(id) == "" ==> r == Fail(DocIdMissing)
      ensures TrimSpace(id) != "" && RequireTenantID(ctx).Fail? ==> r == Fail(TenantMissing)
      ensures r.Ok? <==>
        TrimSpace(id) != "" && RequireTenantID(ctx).Ok? && (RequireTenantID(ctx).value, TrimSpace(id)) in documents &&
        var cv := documents[(RequireTenantID(ctx).value, TrimSpace(id))].currentVersion;
        cv > 0 && (RequireTenantID(ctx).value, TrimSpace(id), cv) in versions
      ensures r.Ok? ==>
        var (doc, ver) := r.value;
        var t := RequireTenantID(ctx).value;
        (t, TrimSpace(id)) in documents && documents[(t, TrimSpace(id))] == doc && doc.currentVersion > 0 &&
        ver.id == versionId && ver.tenantId == t && ver.documentId == TrimSpace(id) &&
        ver.version == doc.currentVersion + 1 && ver.rawText == versions[(t, TrimSpace(id), doc.currentVersion)].rawText &&
        ver.status == StatusProcessing && ver.errorReason == ""
      ensures TrimSpace(id) != "" && RequireTenantID(ctx).Ok? && (RequireTenantID(ctx).value, TrimSpace(id)) in documents &&
        documents[(RequireTenantID(ctx).value, TrimSpace(id))].currentVersion <= 0
        ==> r == Fail(DocVersionMissing)
    {
      var docId :- DocumentIdInput(id);
      var tenant :- RequireTenantID(ctx);
      var doc :- DocumentRow(tenant, docId);
      if doc.currentVersion <= 0 then Fail(DocVersionMissing)
      else
        var current :- VersionByNumber(tenant, docId, doc.currentVersion);
        Ok((doc, NewVersion(versionId, tenant, docId, doc.currentVersion + 1, current.rawText)))
    }

    /** CreateDocumentVersion: a taken key or id is DOC_VERSION_DUPLICATE;
        otherwise the version is stored and indexed by its id. */
    method CreateVersionRow(ver: DocumentVersion) returns (out: Outcome)
      requires Valid() && ver.version >= 1
      modifies this`versions, this`versionIds
      ensures Valid()
      ensures old(VersionTaken(ver)) ==> out == Failed(DocVersionDuplicate) && versions == old(versions) && versionIds == old(versionIds)
      ensures !old(VersionTaken(ver)) ==>
        out == Pass && versions == old(versions)[(ver.tenantId, ver.documentId, ver.version) := ver] &&
        versionIds == old(versionIds)[(ver.tenantId, ver.id) := (ver.documentId, ver.version)]
      ensures old(CurrentReady()) ==> CurrentReady()
    {
      if VersionTaken(ver) {
        return Failed(DocVersionDuplicate);
      }
      versions := versions[(ver.tenantId, ver.documentId, ver.version) := ver];
      versionIds := versionIds[(ver.tenantId, ver.id) := (ver.documentId, ver.version)];
      out := Pass;
    }

    /** enqueueIngestion: the job goes to the queue only when async
        ingestion is on and the queue accepts it (`accepted`). */
    method Enqueue(job: IngestionJob, accepted: bool) returns (sent: bool)
      modifies this`queued
      ensures sent == (asyncEnabled && accepted)
      ensures queued == if sent then old(queued) + [job] else old(queued)
    {
      sent := asyncEnabled && accepted;
      if sent {
        queued := queued + [job];
      }
    }

    /** The tail of UploadDocument and ReindexDocument: enqueue the job,
        or else process it now. */
    method RunJob(job: IngestionJob, accepted: bool, svc: Services, now: int) returns (sent: bool, out: Outcome)
      requires Valid() && JobRows(job).Ok?
      modifies this`queued, this`documents, this`versions, this`indexed, this`embedder
      ensures Valid()
      ensures old(CurrentReady()) && old(JobSound(job)) ==> CurrentReady()
      ensures sent == (asyncEnabled && accepted)
      ensures sent ==>
        out == Pass && queued == old(queued) + [job] && unchanged(this`documents, this`versions, this`indexed, this`embedder)
      ensures !sent ==>
        var rows := old(JobRows(job)).value;
        var g := Ingest(job, rows.0, rows.1, old(embedder), cfg, svc, now);
        queued == old(queued) && embedder == g.embedder &&
        Applied(job, g.step, rows.0, old(documents), old(versions), old(indexed)) &&
        out == (if g.step.Index? then Pass else Failed(g.step.error))
    {
      sent := Enqueue(job, accepted);
      if sent {
        return sent, Pass;
      }
      out := ProcessIngestion(job, svc, now);
    }

    /** A document's current version is none or a ready one. */
    ghost predicate ReadyAt(doc: Document)
      reads this`versions
    {
      doc.currentVersion == 0 ||
      ((doc.tenantId, doc.id, doc.currentVersion) in versions &&
       versions[(doc.tenantId, doc.id, doc.currentVersion)].status == StatusReady)
    }

    /** The shared tail of UploadDocument and ReindexDocument: insert the
        version; once that succeeds, write the document row and enqueue or
        process the job, whose fallback is the document's current version. */
    method CreateAndRun(doc: Document, ver: DocumentVersion, accepted: bool, svc: Services, now: int)
      returns (created: Outcome, sent: bool, out: Outcome)
      requires Valid() && ver.version >= 1 && doc.tenantId != ""
      requires ver.tenantId == doc.tenantId && ver.documentId == doc.id && (doc.tenantId, doc.id) in documents
      modifies this`documents, this`versions, this`versionIds, this`queued, this`indexed, this`embedder
      ensures Valid()
      ensures old(CurrentReady()) && old(ReadyAt(doc)) ==> CurrentReady()
      ensures old(VersionTaken(ver)) ==>
        created == Failed(DocVersionDuplicate) &&
        unchanged(this`documents, this`versions, this`versionIds, this`queued, this`indexed, this`embedder)
      ensures !old(VersionTaken(ver)) ==>
        var documents1 := old(documents)[(doc.tenantId, doc.id) := doc];
        var versions1 := old(versions)[(ver.tenantId, ver.documentId, ver.version) := ver];
        var job := JobFor(doc, ver, doc.currentVersion);
        created == Pass && sent == (asyncEnabled && accepted) &&
        versionIds == old(versionIds)[(ver.tenantId, ver.id) := (ver.documentId, ver.version)] &&
        (sent ==>
           out == Pass && documents == documents1 && versions == versions1 &&
           queued == old(queued) + [job] && indexed == old(indexed) && embedder == old(embedder)) &&
        (!sent ==>
           var g := Ingest(job, ver, doc, old(embedder), cfg, svc, now);
           queued == old(queued) && embedder == g.embedder && Applied(job, g.step, ver, documents1, versions1, old(indexed)) &&
           out == (if g.step.Index? then Pass else Failed(g.step.error)))
    {
      if doc.currentVersion != 0 && (doc.tenantId, doc.id, doc.currentVersion) in versions {
        VersionLocatedByNumber(versions, versionIds, doc.tenantId, doc.id, doc.currentVersion);
      }
      ghost var ready := old(CurrentReady()) && old(ReadyAt(doc));
      created := CreateVersionRow(ver);
      if created.Failed? {
        return created, false, Pass;
      }
      if ready {
        assert ReadyAt(doc);
        DocumentWriteKeepsReady(documents, versions, doc);
      }
      documents := documents[(doc.tenantId, doc.id) := doc];
      var job := JobFor(doc, ver, doc.currentVersion);
      assert JobRows(job) == Ok((ver, doc));
      assert ready ==> CurrentReady() && JobSound(job);
      sent, out := RunJob(job, accepted, svc, now);
    }

    /** UploadDocument: after the checks and the document insert, a version
        1 with the trimmed content; its job (no fallback) is enqueued, or
        processed at once, in which case the rows returned are the ones the
        ingestion left ready. A version insert that fails leaves the
        processing document behind. */
    method UploadDocument(ctx: Context, kbId: string, title: string, sourceType: string, content: string,
                          docId: string, versionId: string, accepted: bool, svc: Services, now: int)
      returns (r: Result<(Document, DocumentVersion)>)
      requires Valid()
      modifies this`documents, this`versions, this`versionIds, this`queued, this`indexed, this`embedder
      ensures Valid()
      ensures old(CurrentReady()) ==> CurrentReady()
      ensures var plan := old(UploadRows(ctx, kbId, title, sourceType, content, docId, versionId));
        (plan.Fail? ==> r == Fail(plan.error) && unchanged(this`documents, this`versions, this`versionIds, this`queued, this`indexed, this`embedder)) &&
        (plan.Ok? ==>
           var (doc, ver) := plan.value;
           var documents1 := old(documents)[(doc.tenantId, doc.id) := doc];
           var versions1 := old(versions)[(ver.tenantId, ver.documentId, ver.version) := ver];
           var job := JobFor(doc, ver, 0);
           (old(VersionTaken(ver)) ==>
              r == Fail(DocVersionDuplicate) && documents == documents1 && versions == old(versions) &&
              versionIds == old(versionIds) && queued == old(queued) && indexed == old(indexed) && embedder == old(embedder)) &&
           (!old(VersionTaken(ver)) ==> versionIds == old(versionIds)[(ver.tenantId, ver.id) := (ver.documentId, ver.version)]) &&
           (!old(VersionTaken(ver)) && asyncEnabled && accepted ==>
              r == Ok((doc, ver)) && documents == documents1 && versions == versions1 &&
              queued == old(queued) + [job] && indexed == old(indexed) && embedder == old(embedder)) &&
           (!old(VersionTaken(ver)) && !(asyncEnabled && accepted) ==>
              var g := Ingest(job, ver, doc, old(embedder), cfg, svc, now);
              queued == old(queued) && embedder == g.embedder && Applied(job, g.step, ver, documents1, versions1, old(indexed)) &&
              r == (if g.step.Index? then Ok((doc.(status := StatusReady, currentVersion := 1), ver.(status := StatusReady)))
                    else Fail(g.step.error))))
      ensures r.Ok? ==>
        var (doc, ver) := r.value;
        (doc.tenantId, doc.id) in documents && documents[(doc.tenantId, doc.id)] == doc &&
        (ver.tenantId, ver.documentId, ver.version) in versions && versions[(ver.tenantId, ver.documentId, ver.version)] == ver
    {
      var rows := UploadRows(ctx, kbId, title, sourceType, content, docId, versionId);
      if rows.Fail? {
        return Fail(rows.error);
      }
      var (doc, ver) := rows.value;
      if CurrentReady() {
        DocumentWriteKeepsReady(documents, versions, doc);
      }
      documents := documents[(doc.tenantId, doc.id) := doc];
      assert documents == documents[(doc.tenantId, doc.id) := doc];
      assert ReadyAt(doc);
      var created, sent, out := CreateAndRun(doc, ver, accepted, svc, now);
      if created.Failed? {
        return Fail(created.error);
      }
      if sent {
        return Ok((doc, ver));
      }
      if out.Failed? {
        return Fail(out.error);
      }
      assert documents[(doc.tenantId, doc.id)] == doc.(status := StatusReady, currentVersion := 1);
      assert versions[(ver.tenantId, ver.documentId, ver.version)] == ver.(status := StatusReady);
      r := Ok((doc.(status := StatusReady, currentVersion := 1), ver.(status := StatusReady)));
    }

    /** ReindexDocument: a new version current + 1 with the current
        version's text; the document goes back to processing at its current
        version, which the job keeps as its fallback; the job is enqueued or
        processed at once. */
    method ReindexDocument(ctx: Context, id: string, versionId: string, accepted: bool, svc: Services, now: int)
      returns (r: Result<DocumentVersion>)
      requires Valid()
      modifies this`documents, this`versions, this`versionIds, this`queued, this`indexed, this`embedder
      ensures Valid()
      ensures old(CurrentReady()) ==> CurrentReady()
      ensures kbs == old(kbs) && bindings == old(bindings)
      ensures var plan := old(ReindexRows(ctx, id, versionId));
        (plan.Fail? ==> r == Fail(plan.error) && unchanged(this`documents, this`versions, this`versionIds, this`queued, this`indexed, this`embedder)) &&
        (plan.Ok? ==>
           var (doc, ver) := plan.value;
           var documents1 := old(documents)[(ver.tenantId, ver.documentId) := doc.(status := StatusProcessing)];
           var versions1 := old(versions)[(ver.tenantId, ver.documentId, ver.version) := ver];
           var job := JobFor(doc, ver, doc.currentVersion);
           (old(VersionTaken(ver)) ==> r == Fail(DocVersionDuplicate) && unchanged(this`documents, this`versions, this`versionIds, this`queued, this`indexed, this`embedder)) &&
           (!old(VersionTaken(ver)) ==> versionIds == old(versionIds)[(ver.tenantId, ver.id) := (ver.documentId, ver.version)]) &&
           (!old(VersionTaken(ver)) && asyncEnabled && accepted ==>
              r == Ok(ver) && documents == documents1 && versions == versions1 &&
              queued == old(queued) + [job] && indexed == old(indexed) && embedder == old(embedder)) &&
           (!old(VersionTaken(ver)) && !(asyncEnabled && accepted) ==>
              var g := Ingest(job, ver, doc.(status := StatusProcessing), old(embedder), cfg, svc, now);
              queued == old(queued) && embedder == g.embedder && Applied(job, g.step, ver, documents1, versions1, old(indexed)) &&
              r == (if g.step.Index? then Ok(ver.(status := StatusReady)) else Fail(g.step.error))))
      ensures r.Ok? ==>
        (r.value.tenantId, r.value.documentId, r.value.version) in versions &&
        versions[(r.value.tenantId, r.value.documentId, r.value.version)] == r.value
    {
      var rows := ReindexRows(ctx, id, versionId);
      if rows.Fail? {
        return Fail(rows.error);
      }
      var (doc, ver) := rows.value;
      var created, sent, out := CreateAndRun(doc.(status := StatusProcessing), ver, accepted, svc, now);
      if created.Failed? {
        return Fail(created.error);
      }
      if sent {
        return Ok(ver);
      }
      if out.Failed? {
        return Fail(out.error);
      }
      r := Ok(ver.(status := StatusReady));
    }

    /** RollbackDocument's checks: the trimmed id, a positive version, the
        tenant, the version by number, and that it is ready. */
    function RollbackTarget(ctx: Context, id: string, version: int): (r: Result<(string, string)>)
      reads this`versions
      ensures TrimSpace(id) == "" ==> r == Fail(DocIdMissing)
      ensures TrimSpace(id) != "" && version <= 0 ==> r == Fail(DocVersionInvalid)
      ensures TrimSpace(id) != "" && version > 0 && RequireTenantID(ctx).Fail? ==> r == Fail(TenantMissing)
      ensures TrimSpace(id) != "" && version > 0 && RequireTenantID(ctx).Ok? &&
        (RequireTenantID(ctx).value, TrimSpace(id), version) in versions &&
        versions[(RequireTenantID(ctx).value, TrimSpace(id), version)].status != StatusReady
        ==> r == Fail(DocVersionNotReady)
      ensures r.Ok? <==>
        TrimSpace(id) != "" && version > 0 && RequireTenantID(ctx).Ok? &&
        (RequireTenantID(ctx).value, TrimSpace(id), version) in versions &&
        versions[(RequireTenantID(ctx).value, TrimSpace(id), version)].status == StatusReady
      ensures r.Ok? ==> r.value == (RequireTenantID(ctx).value, TrimSpace(id))
    {
      var docId :- DocumentIdInput(id);
      if version <= 0 then Fail(DocVersionInvalid)
      else
        var tenant :- RequireTenantID(ctx);
        var v :- VersionByNumber(tenant, docId, version);
        if v.status != StatusReady then Fail(DocVersionNotReady)
        else Ok((tenant, docId))
    }

    /** RollbackDocument: once the checks pass, the document (if there is
        one) becomes ready at the chosen version; every document still
        points at a ready version. */
    method RollbackDocument(ctx: Context, id: string, version: int) returns (out: Outcome)
      requires Valid()
      modifies this`documents
      ensures Valid()
      ensures old(CurrentReady()) ==> CurrentReady()
      ensures var target := old(RollbackTarget(ctx, id, version));
        (target.Fail? ==> out == Failed(target.error) && documents == old(documents)) &&
        (target.Ok? ==>
           out == Pass &&
           documents == if target.value in old(documents)
                        then old(documents)[target.value := old(documents)[target.value].(currentVersion := version, status := StatusReady)]
                        else old(documents))
    {
      var target := RollbackTarget(ctx, id, version);
      if target.Fail? {
        return Failed(target.error);
      }
      if target.value in documents {
        documents := documents[target.value := documents[target.value].(currentVersion := version, status := StatusReady)];
      }
      out := Pass;
    }

    /** CreateKnowledgeBase: the trimmed name is required; the row goes
        under the caller's tenant, with `freshId` when the id is empty; an
        id in use is KB_DUPLICATE. */
    method CreateKnowledgeBase(ctx: Context, kb: KnowledgeBase, freshId: string) returns (r: Result<KnowledgeBase>)
      requires Valid()
      modifies this`kbs
      ensures Valid()
      ensures TrimSpace(kb.name) == "" ==> r == Fail(KbNameMissing)
      ensures TrimSpace(kb.name) != "" && RequireTenantID(ctx).Fail? ==> r == Fail(TenantMissing)
      ensures r.Fail? ==> kbs == old(kbs)
      ensures TrimSpace(kb.name) != "" && RequireTenantID(ctx).Ok? ==>
        var key := (RequireTenantID(ctx).value, if kb.id == "" then freshId else kb.id);
        (key in old(kbs) ==> r == Fail(KbDuplicate)) &&
        (key !in old(kbs) ==>
           r == Ok(KnowledgeBase(key.1, key.0, TrimSpace(kb.name), kb.description)) && kbs == old(kbs)[key := r.value])
    {
      var name := TrimSpace(kb.name);
      if name == "" {
        return Fail(KbNameMissing);
      }
      var tenant :- RequireTenantID(ctx);
      var kbId := if kb.id == "" then freshId else kb.id;
      if (tenant, kbId) in kbs {
        return Fail(KbDuplicate);
      }
      var row := KnowledgeBase(kbId, tenant, name, kb.description);
      kbs := kbs[(tenant, kbId) := row];
      r := Ok(row);
    }

    /** BindBotKnowledgeBase: after the input checks, the knowledge base
        must exist under the caller's tenant; the link is then stored with
        `freshId`. */
    method BindBotKnowledgeBase(ctx: Context, botId: string, kbId: string, priority: int, weight: real, freshId: string)
      returns (r: Result<BotKnowledgeBase>)
      modifies this`bindings
      ensures BindInput(botId, kbId, weight).Fail? ==> r == Fail(BindInput(botId, kbId, weight).error)
      ensures BindInput(botId, kbId, weight).Ok? && RequireTenantID(ctx).Fail? ==> r == Fail(TenantMissing)
      ensures r.Ok? <==>
        BindInput(botId, kbId, weight).Ok? && RequireTenantID(ctx).Ok? && (RequireTenantID(ctx).value, TrimSpace(kbId)) in kbs
      ensures r.Fail? ==> bindings == old(bindings)
      ensures r.Ok? ==>
        var (bot, kb, w) := BindInput(botId, kbId, weight).value;
        r.value == BotKnowledgeBase(freshId, RequireTenantID(ctx).value, bot, kb, priority, w) &&
        (r.value.tenantId, r.value.kbId) in kbs && r.value.weight > 0.0 &&
        bindings == old(bindings) + [r.value]
    {
      var input :- BindInput(botId, kbId, weight);
      var (bot, kb, w) := input;
      var tenant :- RequireTenantID(ctx);
      var _ :- KbRow(tenant, kb);
      var link := BotKnowledgeBase(freshId, tenant, bot, kb, priority, w);
      bindings := bindings + [link];
      r := Ok(link);
    }
  }

  /** ReindexDocument numbers the new version after the current one, not
      after the latest: once RollbackDocument has moved a document below its
      latest version, reindexing it asks for a number already in use and
      fails with DOC_VERSION_DUPLICATE, whatever the fresh id. */
  lemma ReindexAfterRollbackConflicts(u: KnowledgeUsecase, ctx: Context, id: string, versionId: string)
    requires u.Valid() && u.ReindexRows(ctx, id, versionId).Ok?
    requires var doc := u.ReindexRows(ctx, id, versionId).value.0;
      (doc.tenantId, doc.id, doc.currentVersion + 1) in u.versions
    ensures u.VersionTaken(u.ReindexRows(ctx, id, versionId).value.1)
  {
    var (doc, ver) := u.ReindexRows(ctx, id, versionId).value;
    assert (ver.tenantId, ver.documentId) == (doc.tenantId, doc.id);
  }
}
