/** Response normalizers and request builders of the console API client
    (apps/dashboard/src/services/console.ts). Responses are decoded JSON
    values; a field is read snake_case first, then its camelCase alias, with
    `??` (only `undefined` and `null` fall through). */
module ConsoleApi {
  import opened Wrappers
  import opened JsonValues
  import opened Text

  /** `input.name` is neither undefined nor null. */
  predicate Present(input: Json, name: string) {
    input.JObject? && name in input.fields && input.fields[name] != JNull
  }

  /** `input.a ?? input.b ?? … ?? default` */
  function Pick(input: Json, names: seq<string>, default: Json): (r: Json)
    ensures forall i :: (0 <= i < |names| && Present(input, names[i]) &&
                         (forall j :: 0 <= j < i ==> !Present(input, names[j]))) ==> r == input.fields[names[i]]
    ensures (forall i :: 0 <= i < |names| ==> !Present(input, names[i])) ==> r == default
    decreases |names|
  {
    if names == [] then default
    else if Present(input, names[0]) then input.fields[names[0]]
    else
      var r := Pick(input, names[1..], default);
      assert forall i :: 1 <= i < |names| ==> names[1..][i - 1] == names[i];
      r
  }

  /** The normalized API key; fields keep whatever JSON the server sent. */
  datatype ApiKeyItem = ApiKeyItem(
    id: Json, botId: Json, name: Json, status: Json,
    publicChatId: Json, publicChatEnabled: Json,
    scopes: Json, apiVersions: Json,
    quotaDaily: Json, qpsLimit: Json,
    createdAt: Json, lastUsedAt: Json)

  const Empty: Json := JString("")
  const Zero: Json := JNumber(0.0)
  const NoItems: Json := JArray([])

  /** The key `normalizeApiKey` returns for a missing or falsy input. */
  const BlankApiKey: ApiKeyItem :=
    ApiKeyItem(Empty, Empty, Empty, Empty, Empty, JBool(false), NoItems, NoItems, Zero, Zero, Empty, Empty)

  /** `!input` */
  predicate Falsy(input: Option<Json>) { input.None? || !Truthy(input.value) }

  /** normalizeApiKey */
  function NormalizeApiKey(input: Option<Json>): (k: ApiKeyItem)
    ensures Falsy(input) ==> k == BlankApiKey
  {
    if Falsy(input) then BlankApiKey
    else
      var v := input.value;
      var chatId := Pick(v, ["public_chat_id", "publicChatId"], Empty);
      var enabledRaw := Pick(v, ["public_chat_enabled", "publicChatEnabled"], JNull);
      ApiKeyItem(
        Pick(v, ["id"], Empty),
        Pick(v, ["bot_id", "botId"], Empty),
        Pick(v, ["name"], Empty),
        Pick(v, ["status"], Empty),
        chatId,
        if enabledRaw != JNull then enabledRaw else JBool(Truthy(chatId)),
        Pick(v, ["scopes"], NoItems),
        Pick(v, ["api_versions", "apiVersions"], NoItems),
        Pick(v, ["quota_daily", "quotaDaily"], Zero),
        Pick(v, ["qps_limit", "qpsLimit"], Zero),
        Pick(v, ["created_at", "createdAt"], Empty),
        Pick(v, ["last_used_at", "lastUsedAt"], Empty))
  }

  /** `input.snake ?? input.camel ?? default` read field by field: the
      snake_case field wins, its camelCase alias is used only when the
      snake_case field is nullish, and the default only when both are. */
  predicate AliasRule(v: Json, snake: string, camel: string, default: Json, got: Json) {
    && (Present(v, snake) ==> got == v.fields[snake])
    && (!Present(v, snake) && Present(v, camel) ==> got == v.fields[camel])
    && (!Present(v, snake) && !Present(v, camel) ==> got == default)
  }

  /** `input.name ?? default`: a field without an alias. */
  predicate PlainRule(v: Json, name: string, default: Json, got: Json) {
    && (Present(v, name) ==> got == v.fields[name])
    && (!Present(v, name) ==> got == default)
  }

  lemma PickAlias(v: Json, snake: string, camel: string, default: Json)
    ensures AliasRule(v, snake, camel, default, Pick(v, [snake, camel], default))
  {
    assert [snake, camel][0] == snake && [snake, camel][1] == camel;
  }

  lemma PickPlain(v: Json, name: string, default: Json)
    ensures PlainRule(v, name, default, Pick(v, [name], default))
  {
    assert [name][0] == name;
  }

  /** The alias rules of normalizeApiKey on a truthy input, for every
      field: `id`, `name`, `status` and `scopes` have no alias; the others
      read snake_case first, then camelCase, then their default; without
      either enabled flag public chat is enabled iff the chat id is
      truthy. */
  lemma ApiKeyAliasRules(v: Json)
    requires Truthy(v)
    ensures var k := NormalizeApiKey(Some(v));
      && PlainRule(v, "id", Empty, k.id)
      && AliasRule(v, "bot_id", "botId", Empty, k.botId)
      && PlainRule(v, "name", Empty, k.name)
      && PlainRule(v, "status", Empty, k.status)
      && AliasRule(v, "public_chat_id", "publicChatId", Empty, k.publicChatId)
      && AliasRule(v, "public_chat_enabled", "publicChatEnabled", JBool(Truthy(k.publicChatId)), k.publicChatEnabled)
      && PlainRule(v, "scopes", NoItems, k.scopes)
      && AliasRule(v, "api_versions", "apiVersions", NoItems, k.apiVersions)
      && AliasRule(v, "quota_daily", "quotaDaily", Zero, k.quotaDaily)
      && AliasRule(v, "qps_limit", "qpsLimit", Zero, k.qpsLimit)
      && AliasRule(v, "created_at", "createdAt", Empty, k.createdAt)
      && AliasRule(v, "last_used_at", "lastUsedAt", Empty, k.lastUsedAt)
  {
    PickPlain(v, "id", Empty);
    PickAlias(v, "bot_id", "botId", Empty);
    PickPlain(v, "name", Empty);
    PickPlain(v, "status", Empty);
    PickAlias(v, "public_chat_id", "publicChatId", Empty);
    PickAlias(v, "public_chat_enabled", "publicChatEnabled", JNull);
    PickPlain(v, "scopes", NoItems);
    PickAlias(v, "api_versions", "apiVersions", NoItems);
    PickAlias(v, "quota_daily", "quotaDaily", Zero);
    PickAlias(v, "qps_limit", "qpsLimit", Zero);
    PickAlias(v, "created_at", "createdAt", Empty);
    PickAlias(v, "last_used_at", "lastUsedAt", Empty);
  }

  datatype DocumentItem = DocumentItem(
    id: Json, kbId: Json, title: Json, sourceType: Json, status: Json,
    currentVersion: Json, updatedAt: Json, createdAt: Option<Json>)

  const BlankDocument: DocumentItem := DocumentItem(Empty, Empty, Empty, Empty, Empty, Zero, Empty, None)

  /** normalizeDocument: a falsy input gives the blank document (current
      version 0, no creation time); otherwise each field is read snake-first. */
  function NormalizeDocument(input: Option<Json>): (d: DocumentItem)
    ensures Falsy(input) ==> d == BlankDocument
    ensures !Falsy(input) ==> d.createdAt.Some?
    ensures !Falsy(input) && Present(input.value, "current_version") ==>
              d.currentVersion == input.value.fields["current_version"]
    ensures !Falsy(input) && !Present(input.value, "current_version") && !Present(input.value, "currentVersion") ==>
              d.currentVersion == Zero
  {
    if Falsy(input) then BlankDocument
    else
      var v := input.value;
      DocumentItem(
        Pick(v, ["id"], Empty),
        Pick(v, ["kb_id", "kbId"], Empty),
        Pick(v, ["title"], Empty),
        Pick(v, ["source_type", "sourceType"], Empty),
        Pick(v, ["status"], Empty),
        Pick(v, ["current_version", "currentVersion"], Zero),
        Pick(v, ["updated_at", "updatedAt"], Empty),
        Some(Pick(v, ["created_at", "createdAt"], Empty)))
  }

  datatype DocumentVersion = DocumentVersion(id: Json, version: Json, status: Json, createdAt: Json)

  /** normalizeDocumentVersion */
  function NormalizeDocumentVersion(input: Option<Json>): (d: DocumentVersion)
    ensures Falsy(input) ==> d == DocumentVersion(Empty, Zero, Empty, Empty)
    ensures !Falsy(input) && Present(input.value, "version") ==> d.version == input.value.fields["version"]
  {
    if Falsy(input) then DocumentVersion(Empty, Zero, Empty, Empty)
    else
      var v := input.value;
      DocumentVersion(
        Pick(v, ["id"], Empty), Pick(v, ["version"], Zero), Pick(v, ["status"], Empty),
        Pick(v, ["created_at", "createdAt"], Empty))
  }

  /** The alias rules of normalizeDocument on a truthy input, for every
      field: `id`, `title` and `status` have no alias; the others read
      snake_case first, then camelCase, then their default, and the
      creation time is always present. */
  lemma DocumentAliasRules(v: Json)
    requires Truthy(v)
    ensures var d := NormalizeDocument(Some(v));
      && PlainRule(v, "id", Empty, d.id)
      && AliasRule(v, "kb_id", "kbId", Empty, d.kbId)
      && PlainRule(v, "title", Empty, d.title)
      && AliasRule(v, "source_type", "sourceType", Empty, d.sourceType)
      && PlainRule(v, "status", Empty, d.status)
      && AliasRule(v, "current_version", "currentVersion", Zero, d.currentVersion)
      && AliasRule(v, "updated_at", "updatedAt", Empty, d.updatedAt)
      && d.createdAt.Some? && AliasRule(v, "created_at", "createdAt", Empty, d.createdAt.value)
  {
    PickPlain(v, "id", Empty);
    PickAlias(v, "kb_id", "kbId", Empty);
    PickPlain(v, "title", Empty);
    PickAlias(v, "source_type", "sourceType", Empty);
    PickPlain(v, "status", Empty);
    PickAlias(v, "current_version", "currentVersion", Zero);
    PickAlias(v, "updated_at", "updatedAt", Empty);
    PickAlias(v, "created_at", "createdAt", Empty);
  }

  /** The alias rules of normalizeDocumentVersion on a truthy input: `id`,
      `version` (default 0) and `status` have no alias; `created_at` falls
      back to `createdAt`. */
  lemma DocumentVersionAliasRules(v: Json)
    requires Truthy(v)
    ensures var d := NormalizeDocumentVersion(Some(v));
      && PlainRule(v, "id", Empty, d.id)
      && PlainRule(v, "version", Zero, d.version)
      && PlainRule(v, "status", Empty, d.status)
      && AliasRule(v, "created_at", "createdAt", Empty, d.createdAt)
  {
    PickPlain(v, "id", Empty);
    PickPlain(v, "version", Zero);
    PickPlain(v, "status", Empty);
    PickAlias(v, "created_at", "createdAt", Empty);
  }

  const BlankKnowledgeBase: Json :=
    JObject(map["id" := Empty, "name" := Empty, "description" := Empty, "created_at" := Empty])

  const KnowledgeBaseKeys: seq<string> := ["knowledge_base", "knowledgeBase", "knowledge", "kb"]

  /** normalizeKnowledgeBaseResponse: the first present of the four
      envelope keys, else the input itself. */
  function NormalizeKnowledgeBaseResponse(input: Option<Json>): (kb: Json)
    ensures Falsy(input) ==> kb == BlankKnowledgeBase
    ensures !Falsy(input) && (forall i :: 0 <= i < 4 ==> !Present(input.value, KnowledgeBaseKeys[i])) ==>
              kb == input.value
    ensures !Falsy(input) ==>
              forall i :: (0 <= i < 4 && Present(input.value, KnowledgeBaseKeys[i]) &&
                           (forall j :: 0 <= j < i ==> !Present(input.value, KnowledgeBaseKeys[j]))) ==>
                          kb == input.value.fields[KnowledgeBaseKeys[i]]
  {
    if Falsy(input) then BlankKnowledgeBase
    else Pick(input.value, KnowledgeBaseKeys, input.value)
  }

  // ---------------------------------------------------------------------
  // Request builders

  /** One query parameter: set only when its value is truthy. */
  function QueryParam(key: string, value: Option<Json>): (q: seq<(string, Json)>)
    ensures |q| <= 1
    ensures forall i :: 0 <= i < |q| ==> q[i].0 == key && Truthy(q[i].1)
  {
    if value.Some? && Truthy(value.value) then [(key, value.value)] else []
  }

  /** The query of a list request: the filter, `limit` and `offset`, in
      that order, each only when truthy. */
  function ListQuery(filterKey: string, filter: Option<Json>, limit: Option<Json>, offset: Option<Json>): seq<(string, Json)> {
    QueryParam(filterKey, filter) + QueryParam("limit", limit) + QueryParam("offset", offset)
  }

  /** `?` + the encoded query, or nothing for an empty query. `render`
      stands for `String(value)` followed by form encoding. */
  function Suffix(query: seq<(string, Json)>, render: Json -> string): (s: string)
    ensures s == "" <==> query == []
  {
    if query == [] then ""
    else "?" + Join(seq(|query|, i requires 0 <= i < |query| => query[i].0 + "=" + render(query[i].1)), "&")
  }

  /** listDocuments / listApiKeys: the filter key (`kb_id` or `bot_id`),
      `limit` and `offset` are appended in that order, each only when
      truthy. */
  method ListPath(base: string, filterKey: string, filter: Option<Json>, limit: Option<Json>, offset: Option<Json>,
                  render: Json -> string)
    returns (path: string, query: seq<(string, Json)>)
    ensures query == ListQuery(filterKey, filter, limit, offset)
    ensures forall i :: 0 <= i < |query| ==> Truthy(query[i].1)
    ensures (filter.Some? && Truthy(filter.value)) <==> (filterKey, filter.GetOr(JNull)) in query
    ensures (limit.Some? && Truthy(limit.value)) <==> ("limit", limit.GetOr(JNull)) in query
    ensures (offset.Some? && Truthy(offset.value)) <==> ("offset", offset.GetOr(JNull)) in query
    ensures |query| <= 3
    ensures query == [] <==>
      !(filter.Some? && Truthy(filter.value)) && !(limit.Some? && Truthy(limit.value)) && !(offset.Some? && Truthy(offset.value))
    ensures path == base + Suffix(query, render)
    ensures query == [] ==> path == base
  {
    query := [];
    if filter.Some? && Truthy(filter.value) {
      query := query + [(filterKey, filter.value)];
    }
    if limit.Some? && Truthy(limit.value) {
      query := query + [("limit", limit.value)];
    }
    if offset.Some? && Truthy(offset.value) {
      query := query + [("offset", offset.value)];
    }
    assert query == ListQuery(filterKey, filter, limit, offset);
    ListQueryParams(filterKey, filter, limit, offset);
    path := base + Suffix(query, render);
  }

  /** Each parameter is in the list query exactly when its value is
      truthy, and nothing else is. */
  lemma ListQueryParams(filterKey: string, filter: Option<Json>, limit: Option<Json>, offset: Option<Json>)
    ensures var query := ListQuery(filterKey, filter, limit, offset);
      && (forall i :: 0 <= i < |query| ==> Truthy(query[i].1))
      && ((filter.Some? && Truthy(filter.value)) <==> (filterKey, filter.GetOr(JNull)) in query)
      && ((limit.Some? && Truthy(limit.value)) <==> ("limit", limit.GetOr(JNull)) in query)
      && ((offset.Some? && Truthy(offset.value)) <==> ("offset", offset.GetOr(JNull)) in query)
      && |query| <= 3
      && (query == [] <==>
            !(filter.Some? && Truthy(filter.value)) && !(limit.Some? && Truthy(limit.value)) && !(offset.Some? && Truthy(offset.value)))
  {
    var f, l, o := QueryParam(filterKey, filter), QueryParam("limit", limit), QueryParam("offset", offset);
    var query := f + l + o;
    forall i | 0 <= i < |query| ensures Truthy(query[i].1) {
      if i < |f| {
        assert query[i] == f[i];
      } else if i < |f| + |l| {
        assert query[i] == l[i - |f|];
      } else {
        assert query[i] == o[i - |f| - |l|];
      }
    }
    assert !Truthy(JNull);
  }

  /** UpdateApiKeyInput: each field may be undefined. */
  datatype ApiKeyPatch = ApiKeyPatch(
    name: Option<Json>, status: Option<Json>, publicChatEnabled: Option<Json>,
    scopes: Option<Json>, apiVersions: Option<Json>, quotaDaily: Option<Json>, qpsLimit: Option<Json>)

  /** The patch's defined fields under their wire names. */
  function PatchFields(p: ApiKeyPatch): seq<(string, Option<Json>)> {
    [("name", p.name), ("status", p.status), ("public_chat_enabled", p.publicChatEnabled),
     ("scopes", p.scopes), ("api_versions", p.apiVersions), ("quota_daily", p.quotaDaily),
     ("qps_limit", p.qpsLimit)]
  }

  const PatchNames: set<string> :=
    {"id", "name", "status", "public_chat_enabled", "scopes", "api_versions", "quota_daily", "qps_limit"}

  /** updateApiKey's body: `id` plus exactly the fields that are not
      undefined (a null is sent). */
  method UpdateApiKeyBody(id: string, p: ApiKeyPatch) returns (body: map<string, Json>)
    ensures "id" in body && body["id"] == JString(id)
    ensures forall i :: 0 <= i < 7 ==>
      (PatchFields(p)[i].0 in body <==> PatchFields(p)[i].1.Some?) &&
      (PatchFields(p)[i].1.Some? ==> body[PatchFields(p)[i].0] == PatchFields(p)[i].1.value)
    ensures forall k :: k in body ==> k in PatchNames
  {
    ghost var f := PatchFields(p);
    PatchFieldsDistinct(p);
    body := map["id" := JString(id)];
    body := SetDefined(body, "name", p.name);
    assert body == Fill(id, f, 1);
    body := SetDefined(body, "status", p.status);
    assert body == Fill(id, f, 2);
    body := SetDefined(body, "public_chat_enabled", p.publicChatEnabled);
    assert body == Fill(id, f, 3);
    body := SetDefined(body, "scopes", p.scopes);
    assert body == Fill(id, f, 4);
    body := SetDefined(body, "api_versions", p.apiVersions);
    assert body == Fill(id, f, 5);
    body := SetDefined(body, "quota_daily", p.quotaDaily);
    assert body == Fill(id, f, 6);
    body := SetDefined(body, "qps_limit", p.qpsLimit);
    assert body == Fill(id, f, 7);
    FillFilled(id, f, 7);
    forall k | k in body
      ensures k in PatchNames
    {
      if k != "id" {
        var i :| 0 <= i < 7 && f[i].0 == k;
      }
    }
  }

  /** `if (value !== undefined) body[key] = value`. */
  method SetDefined(body: map<string, Json>, key: string, value: Option<Json>) returns (r: map<string, Json>)
    ensures r == Put(body, (key, value))
  {
    r := body;
    if value.Some? {
      r := r[key := value.value];
    }
  }

  function Put(body: map<string, Json>, field: (string, Option<Json>)): map<string, Json> {
    if field.1.Some? then body[field.0 := field.1.value] else body
  }

  /** The body holds `id` and, of the first n fields, exactly the defined
      ones with their values, and nothing else. */
  ghost predicate Filled(body: map<string, Json>, id: string, fields: seq<(string, Option<Json>)>, n: nat)
    requires n <= |fields|
  {
    && "id" in body && body["id"] == JString(id)
    && (forall i :: 0 <= i < n ==>
          (fields[i].0 in body <==> fields[i].1.Some?) &&
          (fields[i].1.Some? ==> body[fields[i].0] == fields[i].1.value))
    && (forall k :: k in body ==> k == "id" || exists i :: 0 <= i < n && fields[i].0 == k)
  }

  /** The body after setting the first n fields in order. */
  ghost function Fill(id: string, fields: seq<(string, Option<Json>)>, n: nat): map<string, Json>
    requires n <= |fields|
  {
    if n == 0 then map["id" := JString(id)] else Put(Fill(id, fields, n - 1), fields[n - 1])
  }

  /** Setting one more field, under a name not used before, keeps the
      body filled. */
  lemma FilledStep(body: map<string, Json>, id: string, fields: seq<(string, Option<Json>)>, n: nat)
    requires n < |fields| && Filled(body, id, fields, n)
    requires fields[n].0 != "id" && forall i :: 0 <= i < n ==> fields[i].0 != fields[n].0
    ensures Filled(Put(body, fields[n]), id, fields, n + 1)
  {
    var r := Put(body, fields[n]);
    forall k | k in r
      ensures k == "id" || exists i :: 0 <= i < n + 1 && fields[i].0 == k
    {
      if k != fields[n].0 && k != "id" {
        assert k in body;
        var i :| 0 <= i < n && fields[i].0 == k;
      }
    }
  }

  /** Setting fields with distinct names, none of them `id`, one after
      the other fills the body with exactly the defined ones. */
  lemma {:induction false} FillFilled(id: string, fields: seq<(string, Option<Json>)>, n: nat)
    requires n <= |fields|
    requires forall i :: 0 <= i < |fields| ==> fields[i].0 != "id"
    requires forall i, j :: 0 <= i < j < |fields| ==> fields[i].0 != fields[j].0
    ensures Filled(Fill(id, fields, n), id, fields, n)
  {
    if n > 0 {
      FillFilled(id, fields, n - 1);
      FilledStep(Fill(id, fields, n - 1), id, fields, n - 1);
    }
  }

  /** The wire names of a patch are distinct, none is `id`, and all are
      among the names the body may hold. */
  lemma PatchFieldsDistinct(p: ApiKeyPatch)
    ensures |PatchFields(p)| == 7
    ensures PatchFields(p)[0] == ("name", p.name) && PatchFields(p)[1] == ("status", p.status)
    ensures PatchFields(p)[2] == ("public_chat_enabled", p.publicChatEnabled) && PatchFields(p)[3] == ("scopes", p.scopes)
    ensures PatchFields(p)[4] == ("api_versions", p.apiVersions) && PatchFields(p)[5] == ("quota_daily", p.quotaDaily)
    ensures PatchFields(p)[6] == ("qps_limit", p.qpsLimit)
    ensures forall i :: 0 <= i < 7 ==> PatchFields(p)[i].0 != "id" && PatchFields(p)[i].0 in PatchNames
    ensures forall i, j :: 0 <= i < j < 7 ==> PatchFields(p)[i].0 != PatchFields(p)[j].0
  {
    var f := PatchFields(p);
    assert "status"[1] != "scopes"[1];
    assert "quota_daily"[0] != "api_versions"[0];
  }

  /** updateDocument's body: `id`, plus `kb_id` when defined. */
  method UpdateDocumentBody(id: string, kbId: Option<Json>) returns (body: map<string, Json>)
    ensures body.Keys == if kbId.Some? then {"id", "kb_id"} else {"id"}
    ensures body["id"] == JString(id)
    ensures kbId.Some? ==> body["kb_id"] == kbId.value
  {
    body := map["id" := JString(id)];
    if kbId.Some? {
      body := body["kb_id" := kbId.value];
    }
  }
}
