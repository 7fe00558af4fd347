/** The console's multipart upload of document files
    (apps/server/internal/knowledge/service/upload_file.go): the console
    tenant check, the choice of files and title, source-type inference from
    the file name, and the loop that hands each file to the knowledge use
    case. The use case's file upload, MIME tables and content sniffing are
    parameters. */
module UploadFile {
  import opened Wrappers
  import opened Text
  import opened Jwt
  import opened Contexts
  import opened Tenancy
  import opened AuthMiddleware
  import opened Knowledge

  /** maxUploadBytes, 10 << 20: at most this much of each file is read. */
  const MaxUploadBytes := 10 * 1024 * 1024

  const UploadInvalid := BadRequest("DOC_UPLOAD_INVALID")
  const UploadEmpty := BadRequest("DOC_UPLOAD_EMPTY")
  const ContentEmpty := BadRequest("DOC_CONTENT_EMPTY")
  const ConsoleTenantMissing := Forbidden("TENANT_MISSING")

  /** One part of the multipart form: its file name, its Content-Type
      header, and what opening and reading it gives. */
  datatype FileHeader = FileHeader(filename: string, contentType: string, content: Result<seq<bv8>>)

  /** The parsed multipart form: the raw `kb_id`, `title` and
      `source_type` values ("" when absent) and the `files` and `file`
      parts. */
  datatype MultipartForm = MultipartForm(kbId: string, title: string, sourceType: string,
                                         files: seq<FileHeader>, file: seq<FileHeader>)

  /** The request: its context, its Authorization header, and the form,
      None when ParseMultipartForm fails. */
  datatype HttpRequest = HttpRequest(ctx: Context, authorization: string, form: Option<MultipartForm>)

  /** What one file becomes on its way to the use case. */
  datatype FileRequest = FileRequest(kbId: string, title: string, sourceType: string, filename: string,
                                     payload: seq<bv8>, contentType: string)

  /** mime.TypeByExtension and http.DetectContentType. */
  datatype Mime = Mime(typeByExtension: string -> string, sniff: seq<bv8> -> string)

  /** The form values every file shares. */
  datatype Fields = Fields(kbId: string, title: string, sourceType: string)

  type Item = (Document, DocumentVersion)

  /** filepath.Ext on '/'-separated paths: the suffix from the last '.' of
      the final path element, or "" when that element has none. */
  function Ext(path: string): (e: string)
    ensures e == "" || (e[0] == '.' && HasSuffix(path, e))
    ensures forall i :: 1 <= i < |e| ==> e[i] != '.' && e[i] != '/'
  {
    if path == [] || path[|path| - 1] == '/' then ""
    else if path[|path| - 1] == '.' then "."
    else
      var e := Ext(path[..|path| - 1]);
      if e == "" then ""
      else
        assert path == path[..|path| - 1] + [path[|path| - 1]];
        e + [path[|path| - 1]]
  }

  /** A name ending in `.e`, where e holds no '.' and no '/', has the
      extension `.e`. */
  lemma {:induction false} ExtOfName(stem: string, e: string)
    requires forall i :: 0 <= i < |e| ==> e[i] != '.' && e[i] != '/'
    ensures Ext(stem + "." + e) == "." + e
    decreases |e|
  {
    var name := stem + "." + e;
    if e != [] {
      var init := e[..|e| - 1];
      assert name[..|name| - 1] == stem + "." + init;
      ExtOfName(stem, init);
      assert "." + init + [e[|e| - 1]] == "." + e;
    }
  }

  /** A name with no '.' has no extension. */
  lemma {:induction false} ExtOfDotless(name: string)
    requires forall i :: 0 <= i < |name| ==> name[i] != '.'
    ensures Ext(name) == ""
    decreases |name|
  {
    if name != [] && name[|name| - 1] != '/' {
      ExtOfDotless(name[..|name| - 1]);
    }
  }

  /** Lower-casing commutes with taking the extension: '.' and '/' are
      neither capitals nor lower-case images. */
  lemma {:induction false} ExtOfLower(name: string)
    ensures Ext(Lower(name)) == Lower(Ext(name))
    decreases |name|
  {
    if name != [] {
      var init, c := name[..|name| - 1], name[|name| - 1];
      assert name == init + [c];
      LowerSnoc(init, c);
      ExtSnoc(init, c);
      ExtSnoc(Lower(init), LowerChar(c));
      if c == '.' {
        LowerSnoc([], c);
        assert [] + [c] == ".";
      } else if c != '/' {
        ExtOfLower(init);
        if Ext(init) != "" {
          LowerSnoc(Ext(init), c);
        }
      }
    }
  }

  /** The extension after one more character. */
  lemma ExtSnoc(init: string, c: char)
    ensures Ext(init + [c]) ==
      if c == '/' then "" else if c == '.' then "." else if Ext(init) == "" then "" else Ext(init) + [c]
  {
    assert (init + [c])[..|init|] == init;
  }

  /** Lower-casing one more character. */
  lemma LowerSnoc(s: string, c: char)
    ensures Lower(s + [c]) == Lower(s) + [LowerChar(c)]
    ensures c == '/' || c == '.' <==> LowerChar(c) == '/' || LowerChar(c) == '.'
  {
  }

  /** The switch of inferSourceTypeFromFilename, on a lower-cased
      extension. */
  function SourceTypeOfExt(ext: string): (t: string)
    ensures t in {"pdf", "doc", "docx", "markdown", "html", "text"}
    ensures t == "text" <==> ext !in {".pdf", ".doc", ".docx", ".md", ".markdown", ".html", ".htm"}
  {
    if ext == ".pdf" then "pdf"
    else if ext == ".doc" then "doc"
    else if ext == ".docx" then "docx"
    else if ext == ".md" || ext == ".markdown" then "markdown"
    else if ext == ".html" || ext == ".htm" then "html"
    else "text"
  }

  /** inferSourceTypeFromFilename: the type of the lower-cased extension;
      `.txt`, unknown extensions and names without one are text. */
  function InferSourceType(name: string): (t: string)
    ensures t == SourceTypeOfExt(Lower(Ext(name)))
    ensures t in {"pdf", "doc", "docx", "markdown", "html", "text"}
  {
    SourceTypeOfExt(Lower(Ext(name)))
  }

  /** Inference is case-insensitive: a name and its lower-cased form have
      the same type. */
  lemma InferCaseInsensitive(name: string)
    ensures InferSourceType(Lower(name)) == InferSourceType(name)
  {
    ExtOfLower(name);
    LowerIdempotent(Ext(name));
  }

  /** A file named `stem.e` is typed by `.e` alone, whatever the stem:
      `.docx` is docx, `.doc` is doc and `.md` or `.markdown` is markdown,
      in any casing. */
  lemma InferFromSuffix(stem: string, e: string)
    requires forall i :: 0 <= i < |e| ==> e[i] != '.' && e[i] != '/'
    ensures InferSourceType(stem + "." + e) == SourceTypeOfExt("." + Lower(e))
    ensures Lower(e) == "docx" ==> InferSourceType(stem + "." + e) == "docx"
    ensures Lower(e) == "doc" ==> InferSourceType(stem + "." + e) == "doc"
    ensures Lower(e) in {"md", "markdown"} ==> InferSourceType(stem + "." + e) == "markdown"
  {
    ExtOfName(stem, e);
    assert Lower("." + e) == "." + Lower(e);
  }

  /** A name without a '.' is text. */
  lemma InferDotless(name: string)
    requires forall i :: 0 <= i < |name| ==> name[i] != '.'
    ensures InferSourceType(name) == "text"
  {
    ExtOfDotless(name);
  }

  /** detectContentType: the MIME type of a known extension, otherwise the
      type sniffed from the payload. */
  function DetectContentType(filename: string, payload: seq<bv8>, mime: Mime): (r: string)
    ensures Ext(filename) != "" && mime.typeByExtension(Ext(filename)) != "" ==> r == mime.typeByExtension(Ext(filename))
    ensures Ext(filename) == "" || mime.typeByExtension(Ext(filename)) == "" ==> r == mime.sniff(payload)
  {
    var ext := Ext(filename);
    if ext != "" && mime.typeByExtension(ext) != "" then mime.typeByExtension(ext) else mime.sniff(payload)
  }

  /** The body of the loop before the use case is called: a file that does
      not open or read fails with that error, at most MaxUploadBytes are
      kept, an empty payload is DOC_CONTENT_EMPTY, an explicit source type
      wins over inference, and a blank Content-Type header is replaced by
      the detected type. */
  function PrepareFile(f: FileHeader, fields: Fields, mime: Mime): (r: Result<FileRequest>)
    ensures f.content.Fail? ==> r == Fail(f.content.error)
    ensures f.content.Ok? && f.content.value == [] ==> r == Fail(ContentEmpty)
    ensures r.Fail? ==> f.content.Fail? || f.content.value == []
    ensures r.Ok? ==>
      && f.content.Ok?
      && r.value.payload != []
      && r.value.payload == f.content.value[..if |f.content.value| <= MaxUploadBytes then |f.content.value| else MaxUploadBytes]
      && |r.value.payload| <= MaxUploadBytes
      && r.value.kbId == fields.kbId && r.value.title == fields.title && r.value.filename == f.filename
      && (fields.sourceType != "" ==> r.value.sourceType == fields.sourceType)
      && (fields.sourceType == "" ==> r.value.sourceType == InferSourceType(f.filename))
      && (TrimSpace(f.contentType) != "" ==> r.value.contentType == TrimSpace(f.contentType))
      && (TrimSpace(f.contentType) == "" ==> r.value.contentType == DetectContentType(f.filename, r.value.payload, mime))
  {
    var content :- f.content;
    var payload := if |content| <= MaxUploadBytes then content else content[..MaxUploadBytes];
    if payload == [] then Fail(ContentEmpty)
    else
      var sourceType := if fields.sourceType == "" then InferSourceType(f.filename) else fields.sourceType;
      var header := TrimSpace(f.contentType);
      var contentType := if header == "" then DetectContentType(f.filename, payload, mime) else header;
      Ok(FileRequest(fields.kbId, fields.title, sourceType, f.filename, payload, contentType))
  }

  /** What the whole loop answers: the files in order, stopping at the
      first that fails to prepare or upload. */
  function UploadAll(ctx: Context, files: seq<FileHeader>, fields: Fields, mime: Mime,
                     upload: (Context, FileRequest) -> Result<Item>): Result<seq<Item>>
    decreases |files|
  {
    if files == [] then Ok([])
    else
      var req :- PrepareFile(files[0], fields, mime);
      var item :- upload(ctx, req);
      var rest :- UploadAll(ctx, files[1..], fields, mime, upload);
      Ok([item] + rest)
  }

  /** Items already answered, followed by the answer for the rest. */
  function Prepend(items: seq<Item>, rest: Result<seq<Item>>): Result<seq<Item>> {
    if rest.Ok? then Ok(items + rest.value) else rest
  }

  /** A successful upload answers one item per file, in file order, each
      what the use case returned for that file, and no file was empty. */
  lemma {:induction false} UploadAllItems(ctx: Context, files: seq<FileHeader>, fields: Fields, mime: Mime,
                                          upload: (Context, FileRequest) -> Result<Item>)
    requires UploadAll(ctx, files, fields, mime, upload).Ok?
    ensures var items := UploadAll(ctx, files, fields, mime, upload).value;
      && |items| == |files|
      && forall i :: 0 <= i < |files| ==>
           && PrepareFile(files[i], fields, mime).Ok?
           && files[i].content.value != []
           && upload(ctx, PrepareFile(files[i], fields, mime).value) == Ok(items[i])
    decreases |files|
  {
    if files != [] {
      UploadAllItems(ctx, files[1..], fields, mime, upload);
      var items := UploadAll(ctx, files, fields, mime, upload).value;
      forall i | 0 <= i < |files|
        ensures PrepareFile(files[i], fields, mime).Ok?
        ensures upload(ctx, PrepareFile(files[i], fields, mime).value) == Ok(items[i])
      {
        if i > 0 {
          assert files[i] == files[1..][i - 1];
        }
      }
    }
  }

  /** An empty file fails the upload unless an earlier file already did:
      the first failing file decides the error. */
  lemma {:induction false} EmptyFileFails(ctx: Context, files: seq<FileHeader>, fields: Fields, mime: Mime,
                                          upload: (Context, FileRequest) -> Result<Item>, j: int)
    requires 0 <= j < |files| && files[j].content == Ok([])
    ensures UploadAll(ctx, files, fields, mime, upload).Fail?
    ensures (forall i :: 0 <= i < j ==>
               PrepareFile(files[i], fields, mime).Ok? && upload(ctx, PrepareFile(files[i], fields, mime).value).Ok?)
      ==> UploadAll(ctx, files, fields, mime, upload) == Fail(ContentEmpty)
    decreases j
  {
    if j > 0 {
      assert files[1..][j - 1] == files[j];
      EmptyFileFails(ctx, files[1..], fields, mime, upload, j - 1);
      if forall i :: 0 <= i < j ==>
           PrepareFile(files[i], fields, mime).Ok? && upload(ctx, PrepareFile(files[i], fields, mime).value).Ok? {
        assert PrepareFile(files[0], fields, mime).Ok?;
        forall i | 0 <= i < j - 1
          ensures PrepareFile(files[1..][i], fields, mime).Ok?
          ensures upload(ctx, PrepareFile(files[1..][i], fields, mime).value).Ok?
        {
          assert files[1..][i] == files[i + 1];
        }
      }
    }
  }

  /** The loop of UploadDocumentFile: each file is prepared and uploaded in
      turn and its item appended; the first failure ends the request with
      that error. */
  method UploadEach(ctx: Context, files: seq<FileHeader>, fields: Fields, mime: Mime,
                    upload: (Context, FileRequest) -> Result<Item>) returns (r: Result<seq<Item>>)
    ensures r == UploadAll(ctx, files, fields, mime, upload)
  {
    var items: seq<Item> := [];
    var i := 0;
    assert files[i..] == files;
    var all := UploadAll(ctx, files, fields, mime, upload);
    if all.Ok? {
      assert items + all.value == all.value;
    }
    while i < |files|
      invariant 0 <= i <= |files|
      invariant UploadAll(ctx, files, fields, mime, upload) == Prepend(items, UploadAll(ctx, files[i..], fields, mime, upload))
    {
      assert files[i..][0] == files[i];
      assert files[i..][1..] == files[i + 1..];
      var req := PrepareFile(files[i], fields, mime);
      if req.Fail? {
        return Fail(req.error);
      }
      var item := upload(ctx, req.value);
      if item.Fail? {
        return Fail(item.error);
      }
      var rest := UploadAll(ctx, files[i + 1..], fields, mime, upload);
      if rest.Ok? {
        assert items + ([item.value] + rest.value) == (items + [item.value]) + rest.value;
      }
      items := items + [item.value];
      i := i + 1;
    }
    assert files[i..] == [];
    assert items + [] == items;
    return Ok(items);
  }

  /** ensureConsoleTenant: a request that already carries a tenant goes on
      unchanged; otherwise a missing or blank JWT secret, a missing bearer
      token and a token that does not parse are ADMIN_UNAUTHORIZED, the
      claims are attached with their tenant when they name one, and claims
      without a tenant are TENANT_MISSING. */
  function EnsureConsoleTenant(ctx: Context, auth: Option<AuthConfig>, authorization: string, codec: JwtCodec,
                               now: int): (r: Result<Context>)
    ensures TenantID(ctx).1 ==> r == Ok(ctx)
    ensures !TenantID(ctx).1 && (auth.None? || TrimSpace(auth.value.jwtSecret) == "") ==> r == Fail(AdminUnauthorized)
    ensures !TenantID(ctx).1 && BearerToken(authorization) == "" ==> r == Fail(AdminUnauthorized)
    ensures r.Ok? ==> RequireTenantID(r.value).Ok? && r.value.deadline == ctx.deadline
    ensures r.Fail? ==> r.error in {AdminUnauthorized, ConsoleTenantMissing}
  {
    if TenantID(ctx).1 then Ok(ctx)
    else if auth.None? || TrimSpace(auth.value.jwtSecret) == "" then Fail(AdminUnauthorized)
    else
      var token := BearerToken(authorization);
      if token == "" then Fail(AdminUnauthorized)
      else
        match ParseHS256(codec, token, auth.value.jwtSecret, auth.value.issuer, auth.value.audience, now)
        case Fail(_) => Fail(AdminUnauthorized)
        case Ok(claims) =>
          var withClaims := WithClaims(ctx, claims);
          var reqCtx := if claims.tenantId != "" then WithTenantID(withClaims, claims.tenantId) else withClaims;
          if RequireTenantID(reqCtx).Fail? then Fail(ConsoleTenantMissing) else Ok(reqCtx)
  }

  /** Without a tenant in the request, a correctly signed, current token
      from `Authorization: Bearer <token>` admits the request under its
      claims' tenant, or is TENANT_MISSING when the claims name none. */
  lemma SignedConsoleToken(ctx: Context, auth: AuthConfig, codec: JwtCodec, now: int, claims: Claims)
    requires Sound(codec)
    requires TrimSpace(auth.jwtSecret) != ""
    requires CheckClaims(claims, auth.issuer, auth.audience, now).Ok?
    requires !TenantID(ctx).1
    ensures var token := SignHS256(codec, claims, auth.jwtSecret).value;
      var r := EnsureConsoleTenant(ctx, Some(auth), "Bearer " + token, codec, now);
      && (claims.tenantId != "" ==> r.Ok? && r.value.claims == Some(claims) && TenantID(r.value) == (claims.tenantId, true))
      && (claims.tenantId == "" ==> r == Fail(ConsoleTenantMissing))
  {
    assert auth.jwtSecret != "";
    SignThenParse(codec, claims, auth.jwtSecret, auth.issuer, auth.audience, now);
    BearerOfSigned(codec, claims, auth.jwtSecret);
  }

  /** The console check admits exactly what the admin middleware would
      have admitted under the same configuration, whenever the middleware's
      result carries a tenant. */
  lemma ConsoleAgreesWithMiddleware(ctx: Context, auth: AuthConfig, codec: JwtCodec, now: int, t: Transport)
    requires !TenantID(ctx).1
    requires auth.jwtSecret != "" && TrimSpace(auth.jwtSecret) != ""
    requires IsAdminOperation(t.operation)
    ensures var v := AuthMiddleware.AuthMiddleware(Some(auth), codec, now, Some(t), ctx);
      var r := EnsureConsoleTenant(ctx, Some(auth), t.authorization, codec, now);
      (r.Ok? <==> v.Next? && TenantID(v.ctx).1) && (r.Ok? ==> r.value == v.ctx)
  {
  }

  /** The checks before the loop, in the handler's order: the console
      tenant, the upload permission, the form, and the files. The `files`
      parts are used unless there are none, then the `file` parts; with
      neither the request is DOC_UPLOAD_EMPTY; form values are trimmed, and
      the title is dropped when several files share it. */
  function UploadPlan(req: HttpRequest, auth: Option<AuthConfig>, codec: JwtCodec, now: int,
                      permit: Context -> Outcome): (r: Result<(Context, seq<FileHeader>, Fields)>)
    ensures EnsureConsoleTenant(req.ctx, auth, req.authorization, codec, now).Fail? ==>
      r == Fail(EnsureConsoleTenant(req.ctx, auth, req.authorization, codec, now).error)
    ensures r.Ok? ==> EnsureConsoleTenant(req.ctx, auth, req.authorization, codec, now) == Ok(r.value.0)
    ensures r.Ok? ==> permit(r.value.0) == Pass && req.form.Some?
    ensures var c := EnsureConsoleTenant(req.ctx, auth, req.authorization, codec, now);
      c.Ok? && permit(c.value).Pass? && req.form.None? ==> r == Fail(UploadInvalid)
    ensures var c := EnsureConsoleTenant(req.ctx, auth, req.authorization, codec, now);
      c.Ok? && permit(c.value).Pass? && req.form.Some? && req.form.value.files == [] && req.form.value.file == []
      ==> r == Fail(UploadEmpty)
    ensures r.Ok? ==>
      var form := req.form.value;
      && r.value.1 == (if form.files != [] then form.files else form.file)
      && r.value.1 != []
      && r.value.2.kbId == TrimSpace(form.kbId)
      && r.value.2.sourceType == TrimSpace(form.sourceType)
      && r.value.2.title == (if |r.value.1| > 1 then "" else TrimSpace(form.title))
  {
    var reqCtx :- EnsureConsoleTenant(req.ctx, auth, req.authorization, codec, now);
    var permitted := permit(reqCtx);
    if permitted.Failed? then Fail(permitted.error)
    else if req.form.None? then Fail(UploadInvalid)
    else
      var form := req.form.value;
      var files := if form.files == [] then form.file else form.files;
      if files == [] then Fail(UploadEmpty)
      else
        var title := if |files| > 1 then "" else TrimSpace(form.title);
        Ok((reqCtx, files, Fields(TrimSpace(form.kbId), title, TrimSpace(form.sourceType))))
  }

  /** UploadDocumentFile: the checks of UploadPlan, then every file
      uploaded in order. */
  method UploadDocumentFile(req: HttpRequest, auth: Option<AuthConfig>, codec: JwtCodec, now: int,
                            permit: Context -> Outcome, mime: Mime,
                            upload: (Context, FileRequest) -> Result<Item>) returns (r: Result<seq<Item>>)
    ensures var plan := UploadPlan(req, auth, codec, now, permit);
      && (plan.Fail? ==> r == Fail(plan.error))
      && (plan.Ok? ==> r == UploadAll(plan.value.0, plan.value.1, plan.value.2, mime, upload))
    ensures r.Ok? ==> |r.value| == |UploadPlan(req, auth, codec, now, permit).value.1| >= 1
  {
    var plan := UploadPlan(req, auth, codec, now, permit);
    if plan.Fail? {
      return Fail(plan.error);
    }
    var (reqCtx, files, fields) := plan.value;
    r := UploadEach(reqCtx, files, fields, mime, upload);
    if r.Ok? {
      UploadAllItems(reqCtx, files, fields, mime, upload);
    }
  }
}
