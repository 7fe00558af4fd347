/** Object storage for raw document text
    (apps/server/internal/knowledge/data/storage.go): which backend a
    configuration selects, and the URI each backend's Put returns. The file
    system, MinIO and URL parsing are parameters. */
module ObjectStorage {
  import opened Wrappers
  import opened Text

  datatype StorageConfig = StorageConfig(endpoint: string, accessKey: string, secretKey: string, bucket: string,
                                         region: string, useSsl: bool)

  /** url.Parse of an endpoint, as far as newObjectStorage looks at it. */
  datatype ParsedUrl = ParsedUrl(scheme: string, host: string)

  datatype Storage =
    | Noop
    | Local(baseDir: string)
    | S3(endpoint: string, secure: bool, bucket: string, region: string)

  /** looksLikePath: an absolute or relative path, or a drive letter.
      The source tests the second BYTE of the UTF-8 text: it is ':' exactly
      when the first character is ASCII (one byte) and the second is ':',
      since a multi-byte first character puts a continuation byte there. */
  predicate LooksLikePath(value: string) {
    value != "" && (HasPrefix(value, "/") || HasPrefix(value, ".") || (|value| >= 2 && (value[0] as int) < 0x80 && value[1] == ':'))
  }

  /** newObjectStorage: no config or a blank endpoint is noop; `file://`
      selects a local directory (noop when it names none), as does a
      path-like endpoint; otherwise S3 needs an access key, a secret key
      and a bucket, and a client MinIO accepts. A parsed http(s) URL
      decides TLS and leaves only its host as the endpoint. */
  function NewObjectStorage(cfg: Option<StorageConfig>, parse: string -> Option<ParsedUrl>, clientOk: bool): (s: Storage)
    ensures cfg.None? || TrimSpace(cfg.value.endpoint) == "" ==> s == Noop
    ensures s.Local? ==>
      s.baseDir != "" && cfg.Some? &&
      (var e := TrimSpace(cfg.value.endpoint);
       (HasPrefix(e, "file://") && s.baseDir == e[7..]) || (!HasPrefix(e, "file://") && LooksLikePath(e) && s.baseDir == e))
    ensures s.S3? ==>
      cfg.Some? && !HasPrefix(TrimSpace(cfg.value.endpoint), "file://") && !LooksLikePath(TrimSpace(cfg.value.endpoint)) &&
      TrimSpace(cfg.value.accessKey) != "" && TrimSpace(cfg.value.secretKey) != "" &&
      s.bucket == TrimSpace(cfg.value.bucket) != "" && s.region == TrimSpace(cfg.value.region) && clientOk
  {
    if cfg.None? then Noop
    else
      var c := cfg.value;
      var endpoint := TrimSpace(c.endpoint);
      if endpoint == "" then Noop
      else if HasPrefix(endpoint, "file://") then
        (var baseDir := endpoint[7..]; if baseDir == "" then Noop else Local(baseDir))
      else if LooksLikePath(endpoint) then Local(endpoint)
      else
        var accessKey := TrimSpace(c.accessKey);
        var secretKey := TrimSpace(c.secretKey);
        var bucket := TrimSpace(c.bucket);
        if accessKey == "" || secretKey == "" || bucket == "" then Noop
        else
          var parsed := parse(endpoint);
          var (host, secure) :=
            if parsed.Some? && parsed.value.host != "" then
              (parsed.value.host,
               if parsed.value.scheme == "https" then true else if parsed.value.scheme == "http" then false else c.useSsl)
            else (endpoint, c.useSsl);
          if !clientOk then Noop else S3(host, secure, bucket, TrimSpace(c.region))
  }

  /** What a Put may run into: the directory and file writes of the local
      backend, and the bucket check, bucket creation and upload of S3. */
  datatype StorageIo = StorageIo(
    join: (string, string) -> string,       // filepath.Join
    mkdirs: string -> Outcome, writeFile: string -> Outcome,
    bucketExists: string -> Result<bool>, makeBucket: string -> Outcome, putObject: (string, string) -> Outcome)

  /** Put: noop stores nothing and returns ""; local writes under its
      directory (the key without a leading '/') and returns a `file://`
      URI; S3 creates a missing bucket, uploads, and returns
      `s3://bucket/object`. */
  function Put(s: Storage, key: string, io: StorageIo): (r: Result<string>)
    ensures s.Noop? ==> r == Ok("")
    ensures s.Local? && s.baseDir == "" ==> r == Ok("")
    ensures s.Local? && s.baseDir != "" && r.Ok? ==> r.value == "file://" + io.join(s.baseDir, TrimPrefix(key, "/"))
    ensures s.S3? && r.Ok? ==> r.value == "s3://" + s.bucket + "/" + TrimPrefix(key, "/")
  {
    match s
    case Noop => Ok("")
    case Local(baseDir) =>
      if baseDir == "" then Ok("")
      else
        var path := io.join(baseDir, TrimPrefix(key, "/"));
        if io.mkdirs(path).Failed? then Fail(io.mkdirs(path).error)
        else if io.writeFile(path).Failed? then Fail(io.writeFile(path).error)
        else Ok("file://" + path)
    case S3(_, _, bucket, _) =>
      var objectKey := TrimPrefix(key, "/");
      match io.bucketExists(bucket)
      case Fail(e) => Fail(e)
      case Ok(found) =>
        if !found && io.makeBucket(bucket).Failed? then Fail(io.makeBucket(bucket).error)
        else if io.putObject(bucket, objectKey).Failed? then Fail(io.putObject(bucket, objectKey).error)
        else Ok("s3://" + bucket + "/" + objectKey)
  }

  /** Every backend newObjectStorage builds returns a URI naming the
      stored object when Put succeeds, except noop, which returns "". */
  lemma PutUri(cfg: Option<StorageConfig>, parse: string -> Option<ParsedUrl>, clientOk: bool, key: string, io: StorageIo)
    ensures var s := NewObjectStorage(cfg, parse, clientOk);
      var r := Put(s, key, io);
      r.Ok? ==> (r.value == "" <==> s.Noop?) &&
                (s.Local? ==> HasPrefix(r.value, "file://")) &&
                (s.S3? ==> HasPrefix(r.value, "s3://") && HasSuffix(r.value, "/" + TrimPrefix(key, "/")))
  {
    var s := NewObjectStorage(cfg, parse, clientOk);
    var r := Put(s, key, io);
    if r.Ok? && s.S3? {
      var objectKey := TrimPrefix(key, "/");
      assert r.value == "s3://" + (s.bucket + "/" + objectKey);
      assert r.value[|r.value| - |"/" + objectKey|..] == "/" + objectKey;
    }
  }

  /** The object key of a version's raw text. */
  function VersionObjectKey(tenantId: string, documentId: string, version: int): string {
    "tenant/" + tenantId + "/document/" + documentId + "/version/" + IntToString(version) + ".txt"
  }

  /** The raw_uri CreateDocumentVersion stores: a given URI (trimmed) wins;
      otherwise non-empty text is put under its version key when storage is
      configured, and a failed put leaves the URI empty. */
  function RawUri(rawUri: string, rawText: string, storage: Option<Storage>, tenantId: string, documentId: string,
                  version: int, io: StorageIo): (r: string)
    ensures TrimSpace(rawUri) != "" ==> r == TrimSpace(rawUri)
    ensures TrimSpace(rawUri) == "" && (rawText == "" || storage.None?) ==> r == ""
    ensures TrimSpace(rawUri) == "" && rawText != "" && storage.Some? ==>
      var put := Put(storage.value, VersionObjectKey(tenantId, documentId, version), io);
      r == (if put.Ok? then put.value else "")
  {
    var given := TrimSpace(rawUri);
    if given == "" && rawText != "" && storage.Some? then
      match Put(storage.value, VersionObjectKey(tenantId, documentId, version), io)
      case Ok(uri) => uri
      case Fail(_) => ""
    else given
  }
}
