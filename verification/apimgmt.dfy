/** API-key management rules of the server
    (apps/server/internal/apimgmt/biz/apimgmt.go): scope and version lists,
    key status, creation with retries, field-by-field updates, resolution of
    a raw key, usage-filter defaults and the HTTP status of an error.

    Random key material, the clock and the repository are parameters: a
    `Draw` is what one creation attempt takes from the random source and the
    clock, and the repository calls are functions from their argument to the
    repository's answer. */
module ApiKeys {
  import opened Wrappers
  import opened Text
  import opened Collections

  const StatusActive := "active"
  const StatusRevoked := "revoked"

  const ScopeAll := "*"
  const DefaultScopes: seq<string> := ["rag", "conversation"]
  const DefaultVersions: seq<string> := ["v1"]

  /** Times are seconds; 0 is Go's zero time. Quotas and QPS limits are
      int32 in the source; every value the rules below produce stays within
      the range of its input. */
  datatype ApiKey = ApiKey(
    id: string,
    tenantId: string,
    botId: string,
    name: string,
    keyHash: string,
    publicChatId: string,
    publicChatEnabled: bool,
    apiVersions: seq<string>,
    scopes: seq<string>,
    status: string,
    rotatedFrom: string,
    quotaDaily: int,
    qpsLimit: int,
    createdAt: int,
    lastUsedAt: int)

  // ---------------------------------------------------------------------
  // Normalised lists

  /** `strings.ToLower(strings.TrimSpace(s))` */
  function Norm(s: string): string { Lower(TrimSpace(s)) }

  predicate NonBlank(s: string) { s != "" }

  lemma LowerKeepsNonSpace(c: char)
    requires !IsSpace(c)
    ensures !IsSpace(LowerChar(c))
  {
  }

  /** Normalising a normalised value changes nothing. */
  lemma NormIdempotent(s: string)
    ensures Norm(Norm(s)) == Norm(s)
  {
    var t := TrimSpace(s);
    var l := Lower(t);
    TrimSpaceEnds(s);
    if l != [] {
      LowerKeepsNonSpace(t[0]);
      LowerKeepsNonSpace(t[|t| - 1]);
    }
    TrimSpaceUntouched(l);
    LowerIdempotent(t);
  }

  /** Some value of the list normalises to `v`. */
  predicate Yields(items: seq<string>, v: string) {
    exists i :: 0 <= i < |items| && Norm(items[i]) == v
  }

  /** The normalised, non-blank values in order of first occurrence: what
      the source's loop appends to its output, skipping values already in
      its `seen` map. */
  function Distinct(items: seq<string>): seq<string>
    decreases |items|
  {
    if items == [] then []
    else
      var prev := Distinct(items[..|items| - 1]);
      var v := Norm(items[|items| - 1]);
      if v == "" || v in prev then prev else prev + [v]
  }

  /** A value is in the normalised list iff it is non-blank and some input
      normalises to it. */
  lemma {:induction false} DistinctMember(items: seq<string>, v: string)
    ensures v in Distinct(items) <==> v != "" && Yields(items, v)
    decreases |items|
  {
    if items != [] {
      var init := items[..|items| - 1];
      DistinctMember(init, v);
      if Yields(items, v) {
        var i :| 0 <= i < |items| && Norm(items[i]) == v;
        if i < |init| {
          assert init[i] == items[i];
        }
      }
      if Yields(init, v) {
        var i :| 0 <= i < |init| && Norm(init[i]) == v;
        assert items[i] == init[i];
      }
    }
  }

  /** No value appears twice in the normalised list. */
  lemma {:induction false} DistinctNoDups(items: seq<string>)
    ensures NoDups(Distinct(items))
    decreases |items|
  {
    if items != [] {
      var init := items[..|items| - 1];
      DistinctNoDups(init);
      var prev := Distinct(init);
      var v := Norm(items[|items| - 1]);
      if !(v == "" || v in prev) {
        var r := prev + [v];
        forall i, j | 0 <= i < j < |r| ensures r[i] != r[j] {
          if j == |prev| {
            assert r[i] == prev[i];
          }
        }
      }
    }
  }

  /** Every value of a normalised list is non-blank and normalised. */
  lemma DistinctNormalised(items: seq<string>)
    ensures forall v :: v in Distinct(items) ==> v != "" && Norm(v) == v
  {
    forall v | v in Distinct(items) ensures v != "" && Norm(v) == v {
      DistinctMember(items, v);
      var i :| 0 <= i < |items| && Norm(items[i]) == v;
      NormIdempotent(items[i]);
    }
  }

  /** A normalised list is its own normalisation. */
  lemma {:induction false} DistinctOfNormalised(items: seq<string>)
    requires NoDups(items)
    requires forall v :: v in items ==> v != "" && Norm(v) == v
    ensures Distinct(items) == items
    decreases |items|
  {
    if items != [] {
      var init := items[..|items| - 1];
      var last := items[|items| - 1];
      assert NoDups(init);
      assert forall v :: v in init ==> v in items;
      DistinctOfNormalised(init);
      assert last in items;
      assert last !in init;
      assert items == init + [last];
    }
  }

  /** What normalizeScopes returns: nothing for no input, exactly `["*"]`
      when any value normalises to `*`, else the normalised list. */
  function ScopesOf(scopes: seq<string>): (r: seq<string>)
    ensures NoDups(r)
    ensures Yields(scopes, ScopeAll) ==> r == [ScopeAll]
    ensures !Yields(scopes, ScopeAll) ==> r == Distinct(scopes)
  {
    DistinctNoDups(scopes);
    if Yields(scopes, ScopeAll) then [ScopeAll] else Distinct(scopes)
  }

  /** normalizeScopes: the loop with its `seen` map and early return. */
  method NormalizeScopes(scopes: seq<string>) returns (out: seq<string>)
    ensures out == ScopesOf(scopes)
  {
    if |scopes| == 0 {
      return [];
    }
    var seen: set<string> := {};
    out := [];
    for i := 0 to |scopes|
      invariant out == Distinct(scopes[..i])
      invariant forall v :: v in seen <==> v in out
      invariant forall j :: 0 <= j < i ==> Norm(scopes[j]) != ScopeAll
    {
      var value := Norm(scopes[i]);
      assert scopes[..i + 1][..i] == scopes[..i];
      if value == "" {
        continue;
      }
      if value == ScopeAll {
        return [ScopeAll];
      }
      if value in seen {
        continue;
      }
      seen := seen + {value};
      out := out + [value];
    }
    assert scopes[..|scopes|] == scopes;
  }

  /** normalizeVersions: the same as for scopes, with no wildcard. */
  method NormalizeVersions(versions: seq<string>) returns (out: seq<string>)
    ensures out == Distinct(versions)
  {
    if |versions| == 0 {
      return [];
    }
    var seen: set<string> := {};
    out := [];
    for i := 0 to |versions|
      invariant out == Distinct(versions[..i])
      invariant forall v :: v in seen <==> v in out
    {
      var value := Norm(versions[i]);
      assert versions[..i + 1][..i] == versions[..i];
      if value == "" {
        continue;
      }
      if value in seen {
        continue;
      }
      seen := seen + {value};
      out := out + [value];
    }
    assert versions[..|versions|] == versions;
  }

  /** Normalising versions twice is normalising once. */
  lemma VersionsIdempotent(versions: seq<string>)
    ensures Distinct(Distinct(versions)) == Distinct(versions)
  {
    DistinctNormalised(versions);
    DistinctNoDups(versions);
    DistinctOfNormalised(Distinct(versions));
  }

  lemma NormOfLowerWord(w: string)
    requires forall i :: 0 <= i < |w| ==> 'a' <= w[i] <= 'z' || w[i] == '*'
    ensures Norm(w) == w
  {
    TrimSpaceUntouched(w);
  }

  /** Normalising scopes twice is normalising once. */
  lemma ScopesIdempotent(scopes: seq<string>)
    ensures ScopesOf(ScopesOf(scopes)) == ScopesOf(scopes)
  {
    if Yields(scopes, ScopeAll) {
      NormOfLowerWord(ScopeAll);
      assert Norm([ScopeAll][0]) == ScopeAll;
    } else {
      var r := Distinct(scopes);
      DistinctNormalised(scopes);
      DistinctNoDups(scopes);
      DistinctOfNormalised(r);
      DistinctMember(scopes, ScopeAll);
    }
  }

  /** scopeAllowed: no requirement, or no scopes on the key, allows; else
      some scope must normalise to `*` or to the normalised requirement. */
  predicate ScopeAllowed(scopes: seq<string>, required: string) {
    required == "" || |scopes| == 0 || Yields(scopes, ScopeAll) || Yields(scopes, Norm(required))
  }

  /** versionAllowed: the same test without a wildcard. */
  predicate VersionAllowed(versions: seq<string>, required: string) {
    required == "" || |versions| == 0 || Yields(versions, Norm(required))
  }

  /** A normalised, non-blank value is produced by the normalised list iff
      it is produced by the raw one. */
  lemma YieldsDistinct(items: seq<string>, w: string)
    requires w != "" && Norm(w) == w
    ensures Yields(Distinct(items), w) <==> Yields(items, w)
  {
    var r := Distinct(items);
    DistinctNormalised(items);
    DistinctMember(items, w);
    if Yields(r, w) {
      var j :| 0 <= j < |r| && Norm(r[j]) == w;
      assert r[j] in r;
    }
    if Yields(items, w) {
      var j :| 0 <= j < |r| && r[j] == w;
      assert Norm(r[j]) == w;
    }
  }

  lemma NormEmpty()
    ensures Norm("") == ""
  {
  }

  /** Storing the normalised list instead of the raw one allows the same
      requests, as long as normalising left something and the requirement
      is not blank. */
  lemma ScopeAllowedNormalised(scopes: seq<string>, required: string)
    requires ScopesOf(scopes) != []
    requires Norm(required) != ""
    ensures ScopeAllowed(ScopesOf(scopes), required) <==> ScopeAllowed(scopes, required)
  {
    NormEmpty();
    NormOfLowerWord(ScopeAll);
    if Yields(scopes, ScopeAll) {
      assert Norm(ScopesOf(scopes)[0]) == ScopeAll;
    } else {
      NormIdempotent(required);
      YieldsDistinct(scopes, ScopeAll);
      YieldsDistinct(scopes, Norm(required));
    }
  }

  /** The same for versions. */
  lemma VersionAllowedNormalised(versions: seq<string>, required: string)
    requires Distinct(versions) != []
    requires Norm(required) != ""
    ensures VersionAllowed(Distinct(versions), required) <==> VersionAllowed(versions, required)
  {
    NormEmpty();
    NormIdempotent(required);
    YieldsDistinct(versions, Norm(required));
  }

  /** A non-empty list of blank scopes normalises to nothing, and a key
      with no scopes is allowed every scope: such an update lifts the
      key's scope restriction. */
  lemma BlankScopesUnrestricted(scopes: seq<string>, required: string)
    requires |scopes| > 0
    requires forall i :: 0 <= i < |scopes| ==> TrimSpace(scopes[i]) == ""
    ensures ScopesOf(scopes) == []
    ensures ScopeAllowed(ScopesOf(scopes), required)
  {
    var r := Distinct(scopes);
    if r != [] {
      DistinctMember(scopes, r[0]);
    }
  }

  // ---------------------------------------------------------------------
  // Status

  /** normalizeStatus: `active`, in any case and with surrounding space, is
      active; everything else (including `disabled`) is revoked. */
  function NormalizeStatus(status: string): (r: string)
    ensures r == StatusActive || r == StatusRevoked
    ensures r == StatusActive <==> Norm(status) == StatusActive
  {
    if Norm(status) == StatusActive then StatusActive else StatusRevoked
  }

  /** A normalised status normalises to itself. */
  lemma NormalizeStatusIdempotent(status: string)
    ensures NormalizeStatus(NormalizeStatus(status)) == NormalizeStatus(status)
  {
    NormOfLowerWord(StatusActive);
    NormOfLowerWord(StatusRevoked);
  }

  // ---------------------------------------------------------------------
  // Creation

  const NameMissing := BadRequest("API_KEY_NAME_MISSING")
  const BotMissing := BadRequest("BOT_ID_MISSING")
  const GenerateFailed := InternalServer("API_KEY_GENERATE_FAILED")

  /** What one creation attempt takes from the random source and the clock:
      the raw key and its hash, the key id, the public chat id and the time. */
  datatype Draw = Draw(rawKey: string, keyHash: string, id: string, publicChatId: string, now: int)

  datatype Created = Created(key: ApiKey, rawKey: string)

  /** isDuplicateKeyError: a kratos error with reason DUPLICATE_KEY; a
      plain error has no reason. */
  predicate IsDuplicateKey(e: Error) { e.Kratos? && e.reason == "DUPLICATE_KEY" }

  /** The key CreateAPIKey builds before the random fields are drawn. */
  function Prepared(name: string, botId: string, scopes: seq<string>, versions: seq<string>,
                    quotaDaily: int, qpsLimit: int, publicChatEnabled: Option<bool>): (k: ApiKey)
    ensures k.name == TrimSpace(name) && k.botId == TrimSpace(botId)
    ensures k.scopes != [] && k.apiVersions != []
    ensures ScopesOf(scopes) != [] ==> k.scopes == ScopesOf(scopes)
    ensures ScopesOf(scopes) == [] ==> k.scopes == DefaultScopes
    ensures Distinct(versions) != [] ==> k.apiVersions == Distinct(versions)
    ensures Distinct(versions) == [] ==> k.apiVersions == DefaultVersions
    ensures k.quotaDaily >= 0 && (quotaDaily >= 0 ==> k.quotaDaily == quotaDaily)
    ensures k.qpsLimit >= 0 && (qpsLimit >= 0 ==> k.qpsLimit == qpsLimit)
    ensures k.publicChatEnabled == publicChatEnabled.GetOr(true)
    ensures k.status == StatusActive && k.tenantId == ""
  {
    var s := ScopesOf(scopes);
    var v := Distinct(versions);
    ApiKey(
      id := "", tenantId := "", botId := TrimSpace(botId), name := TrimSpace(name), keyHash := "",
      publicChatId := "", publicChatEnabled := publicChatEnabled.GetOr(true),
      apiVersions := if v == [] then DefaultVersions else v,
      scopes := if s == [] then DefaultScopes else s,
      status := StatusActive, rotatedFrom := "",
      quotaDaily := if quotaDaily < 0 then 0 else quotaDaily,
      qpsLimit := if qpsLimit < 0 then 0 else qpsLimit,
      createdAt := 0, lastUsedAt := 0)
  }

  /** The key of attempt `d`: the prepared key with the drawn fields. */
  function Candidate(k: ApiKey, d: Draw): ApiKey {
    k.(id := d.id, keyHash := d.keyHash, publicChatId := d.publicChatId, createdAt := d.now)
  }

  predicate Duplicate(answer: Result<ApiKey>) { answer.Fail? && IsDuplicateKey(answer.error) }

  /** What the insert loop of CreateAPIKey may end with after `inserts`
      inserts of the candidates built from `k`: every insert but the last
      hit a duplicate key, and the last one either succeeded (its key and
      raw key are returned), failed otherwise (that error is returned), or
      was the third duplicate (API_KEY_GENERATE_FAILED). */
  predicate RetryOutcome(k: ApiKey, draw: nat -> Draw, insert: ApiKey -> Result<ApiKey>, r: Result<Created>, inserts: nat) {
    1 <= inserts <= 3 &&
    (forall j :: 0 <= j < inserts - 1 ==> Duplicate(insert(Candidate(k, draw(j))))) &&
    var last := insert(Candidate(k, draw(inserts - 1)));
    (last.Ok? ==> r == Ok(Created(last.value, draw(inserts - 1).rawKey))) &&
    (last.Fail? && !IsDuplicateKey(last.error) ==> r == Fail(last.error)) &&
    (Duplicate(last) ==> inserts == 3 && r == Fail(GenerateFailed))
  }

  /** The insert loop of CreateAPIKey. */
  method InsertWithRetries(base: ApiKey, draw: nat -> Draw, insert: ApiKey -> Result<ApiKey>)
    returns (r: Result<Created>, inserts: nat)
    ensures RetryOutcome(base, draw, insert, r, inserts)
  {
    inserts := 0;
    for i := 0 to 3
      invariant inserts == i
      invariant forall j :: 0 <= j < i ==> Duplicate(insert(Candidate(base, draw(j))))
    {
      var d := draw(i);
      var key := base.(id := d.id, keyHash := d.keyHash, publicChatId := d.publicChatId, createdAt := d.now);
      var created := insert(key);
      inserts := inserts + 1;
      if created.Ok? {
        return Ok(Created(created.value, d.rawKey)), inserts;
      }
      if !IsDuplicateKey(created.error) {
        return Fail(created.error), inserts;
      }
    }
    r := Fail(GenerateFailed);
  }

  /** A successful creation returns the key the repository stored and
      the raw key of that same attempt; a repository error other than a
      duplicate key stops the retries at once. */
  lemma RetryOutcomeFacts(k: ApiKey, draw: nat -> Draw, insert: ApiKey -> Result<ApiKey>, r: Result<Created>, inserts: nat)
    requires RetryOutcome(k, draw, insert, r, inserts)
    ensures r.Ok? ==> insert(Candidate(k, draw(inserts - 1))) == Ok(r.value.key)
    ensures r.Fail? ==> r.error == GenerateFailed || !IsDuplicateKey(r.error)
    ensures inserts < 3 ==> !Duplicate(insert(Candidate(k, draw(inserts - 1))))
  {
  }

  /** CreateAPIKey. `draw(i)` is what attempt `i` draws and `insert` is the
      repository's answer to inserting a key. Blank names and bot ids are
      refused before any insert; otherwise the prepared key goes through
      the insert loop. */
  method CreateAPIKey(name: string, botId: string, scopes: seq<string>, versions: seq<string>,
                      quotaDaily: int, qpsLimit: int, publicChatEnabled: Option<bool>,
                      draw: nat -> Draw, insert: ApiKey -> Result<ApiKey>)
    returns (r: Result<Created>, inserts: nat)
    ensures TrimSpace(name) == "" ==> r == Fail(NameMissing) && inserts == 0
    ensures TrimSpace(name) != "" && TrimSpace(botId) == "" ==> r == Fail(BotMissing) && inserts == 0
    ensures TrimSpace(name) != "" && TrimSpace(botId) != "" ==>
      RetryOutcome(Prepared(name, botId, scopes, versions, quotaDaily, qpsLimit, publicChatEnabled), draw, insert, r, inserts)
  {
    if TrimSpace(name) == "" {
      return Fail(NameMissing), 0;
    }
    if TrimSpace(botId) == "" {
      return Fail(BotMissing), 0;
    }
    var normalizedScopes := NormalizeScopes(scopes);
    if |normalizedScopes| == 0 {
      normalizedScopes := DefaultScopes;
    }
    var normalizedVersions := NormalizeVersions(versions);
    if |normalizedVersions| == 0 {
      normalizedVersions := DefaultVersions;
    }
    var quota := if quotaDaily < 0 then 0 else quotaDaily;
    var qps := if qpsLimit < 0 then 0 else qpsLimit;
    var chatEnabled := true;
    if publicChatEnabled.Some? {
      chatEnabled := publicChatEnabled.value;
    }
    var base := ApiKey(
      id := "", tenantId := "", botId := TrimSpace(botId), name := TrimSpace(name), keyHash := "",
      publicChatId := "", publicChatEnabled := chatEnabled, apiVersions := normalizedVersions,
      scopes := normalizedScopes, status := StatusActive, rotatedFrom := "",
      quotaDaily := quota, qpsLimit := qps, createdAt := 0, lastUsedAt := 0);
    assert base == Prepared(name, botId, scopes, versions, quotaDaily, qpsLimit, publicChatEnabled);
    r, inserts := InsertWithRetries(base, draw, insert);
  }

  // ---------------------------------------------------------------------
  // Update

  /** The fields an update may carry: a blank name or status and an empty
      list mean "not supplied", as do absent numbers and flags. */
  datatype Patch = Patch(
    name: string,
    status: string,
    scopes: seq<string>,
    apiVersions: seq<string>,
    quotaDaily: Option<int>,
    qpsLimit: Option<int>,
    publicChatEnabled: Option<bool>)

  predicate EmptyPatch(p: Patch) {
    TrimSpace(p.name) == "" && TrimSpace(p.status) == "" && |p.scopes| == 0 && |p.apiVersions| == 0 &&
    p.quotaDaily.None? && p.qpsLimit.None? && p.publicChatEnabled.None?
  }

  const KeyIdMissing := BadRequest("API_KEY_ID_MISSING")
  const UpdateEmpty := BadRequest("API_KEY_UPDATE_EMPTY")

  /** A supplied name replaces the current one, trimmed. */
  function PatchText(current: string, supplied: string): (r: string)
    ensures TrimSpace(supplied) == "" ==> r == current
    ensures TrimSpace(supplied) != "" ==> r == TrimSpace(supplied)
  {
    if TrimSpace(supplied) == "" then current else TrimSpace(supplied)
  }

  function PatchStatus(current: string, supplied: string): (r: string)
    ensures TrimSpace(supplied) == "" ==> r == current
    ensures TrimSpace(supplied) != "" ==> r == NormalizeStatus(supplied)
  {
    if TrimSpace(supplied) == "" then current else NormalizeStatus(supplied)
  }

  function PatchScopes(current: seq<string>, supplied: seq<string>): (r: seq<string>)
    ensures |supplied| == 0 ==> r == current
    ensures |supplied| > 0 ==> r == ScopesOf(supplied)
  {
    if |supplied| == 0 then current else ScopesOf(supplied)
  }

  function PatchVersions(current: seq<string>, supplied: seq<string>): (r: seq<string>)
    ensures |supplied| == 0 ==> r == current
    ensures |supplied| > 0 ==> r == Distinct(supplied)
  {
    if |supplied| == 0 then current else Distinct(supplied)
  }

  /** A supplied quota or QPS limit replaces the current one, negative
      values clamped to 0. */
  function PatchCount(current: int, supplied: Option<int>): (r: int)
    ensures supplied.None? ==> r == current
    ensures supplied.Some? ==> r >= 0 && (supplied.value >= 0 ==> r == supplied.value)
  {
    match supplied
    case None => current
    case Some(q) => if q < 0 then 0 else q
  }

  /** The stored key after a patch: supplied fields take their normalised
      value, every other field keeps its current value. */
  function Patched(current: ApiKey, p: Patch): (k: ApiKey)
    ensures k.id == current.id && k.tenantId == current.tenantId && k.botId == current.botId
    ensures k.keyHash == current.keyHash && k.publicChatId == current.publicChatId
    ensures k.rotatedFrom == current.rotatedFrom && k.createdAt == current.createdAt && k.lastUsedAt == current.lastUsedAt
    ensures k.name == if TrimSpace(p.name) == "" then current.name else TrimSpace(p.name)
    ensures k.status == if TrimSpace(p.status) == "" then current.status else NormalizeStatus(p.status)
    ensures k.scopes == if |p.scopes| == 0 then current.scopes else ScopesOf(p.scopes)
    ensures k.apiVersions == if |p.apiVersions| == 0 then current.apiVersions else Distinct(p.apiVersions)
    ensures p.quotaDaily.None? ==> k.quotaDaily == current.quotaDaily
    ensures p.quotaDaily.Some? ==> k.quotaDaily >= 0 && (p.quotaDaily.value >= 0 ==> k.quotaDaily == p.quotaDaily.value)
    ensures p.qpsLimit.None? ==> k.qpsLimit == current.qpsLimit
    ensures p.qpsLimit.Some? ==> k.qpsLimit >= 0 && (p.qpsLimit.value >= 0 ==> k.qpsLimit == p.qpsLimit.value)
    ensures k.publicChatEnabled == p.publicChatEnabled.GetOr(current.publicChatEnabled)
  {
    current.(
      name := PatchText(current.name, p.name),
      status := PatchStatus(current.status, p.status),
      scopes := PatchScopes(current.scopes, p.scopes),
      apiVersions := PatchVersions(current.apiVersions, p.apiVersions),
      quotaDaily := PatchCount(current.quotaDaily, p.quotaDaily),
      qpsLimit := PatchCount(current.qpsLimit, p.qpsLimit),
      publicChatEnabled := p.publicChatEnabled.GetOr(current.publicChatEnabled))
  }

  /** Every supplied value is absolute, so applying a patch twice is
      applying it once. */
  lemma PatchedIdempotent(current: ApiKey, p: Patch)
    ensures Patched(Patched(current, p), p) == Patched(current, p)
  {
  }

  /** An empty patch would change nothing; the source refuses it instead. */
  lemma EmptyPatchChangesNothing(current: ApiKey, p: Patch)
    requires EmptyPatch(p)
    ensures Patched(current, p) == current
  {
  }

  /** The field-by-field patch of UpdateAPIKey: each supplied field
      replaces the current value, normalised or clamped. */
  method ApplyPatch(before: ApiKey, p: Patch) returns (current: ApiKey)
    ensures current == Patched(before, p)
  {
    var name := before.name;
    if TrimSpace(p.name) != "" {
      name := TrimSpace(p.name);
    }
    assert name == PatchText(before.name, p.name);
    var status := before.status;
    if TrimSpace(p.status) != "" {
      status := NormalizeStatus(p.status);
    }
    assert status == PatchStatus(before.status, p.status);
    var scopes := before.scopes;
    if |p.scopes| > 0 {
      scopes := NormalizeScopes(p.scopes);
    }
    assert scopes == PatchScopes(before.scopes, p.scopes);
    var versions := before.apiVersions;
    if |p.apiVersions| > 0 {
      versions := NormalizeVersions(p.apiVersions);
    }
    assert versions == PatchVersions(before.apiVersions, p.apiVersions);
    var quota := before.quotaDaily;
    if p.quotaDaily.Some? {
      if p.quotaDaily.value < 0 {
        quota := 0;
      } else {
        quota := p.quotaDaily.value;
      }
    }
    assert quota == PatchCount(before.quotaDaily, p.quotaDaily);
    var qps := before.qpsLimit;
    if p.qpsLimit.Some? {
      if p.qpsLimit.value < 0 {
        qps := 0;
      } else {
        qps := p.qpsLimit.value;
      }
    }
    assert qps == PatchCount(before.qpsLimit, p.qpsLimit);
    var chat := before.publicChatEnabled;
    if p.publicChatEnabled.Some? {
      chat := p.publicChatEnabled.value;
    }
    current := before.(name := name, status := status, scopes := scopes, apiVersions := versions,
                        quotaDaily := quota, qpsLimit := qps, publicChatEnabled := chat);
    assert current == Patched(before, p);
  }

  /** UpdateAPIKey. `lookup` and `store` are the repository's GetAPIKey and
      UpdateAPIKey. The id is trimmed and required, an empty patch is
      refused before the key is read, a lookup error is returned as is, and
      otherwise the patched key is written field by field and stored. */
  method UpdateAPIKey(keyId: string, p: Patch, lookup: string -> Result<ApiKey>, store: ApiKey -> Result<ApiKey>)
    returns (r: Result<ApiKey>, read: bool)
    ensures TrimSpace(keyId) == "" ==> r == Fail(KeyIdMissing) && !read
    ensures TrimSpace(keyId) != "" && EmptyPatch(p) ==> r == Fail(UpdateEmpty) && !read
    ensures read <==> TrimSpace(keyId) != "" && !EmptyPatch(p)
    ensures read && lookup(TrimSpace(keyId)).Fail? ==> r == Fail(lookup(TrimSpace(keyId)).error)
    ensures read && lookup(TrimSpace(keyId)).Ok? ==> r == store(Patched(lookup(TrimSpace(keyId)).value, p))
  {
    var id := TrimSpace(keyId);
    if id == "" {
      return Fail(KeyIdMissing), false;
    }
    if TrimSpace(p.name) == "" && TrimSpace(p.status) == "" && |p.scopes| == 0 && |p.apiVersions| == 0 &&
       p.quotaDaily.None? && p.qpsLimit.None? && p.publicChatEnabled.None? {
      return Fail(UpdateEmpty), false;
    }
    read := true;
    var got := lookup(id);
    if got.Fail? {
      return Fail(got.error), read;
    }
    var current := ApplyPatch(got.value, p);
    r := store(current);
  }

  // ---------------------------------------------------------------------
  // Resolution of a raw key

  const KeyMissing := Unauthorized("API_KEY_MISSING")
  const KeyInvalid := Unauthorized("API_KEY_INVALID")

  /** A stored key that may serve requests. */
  predicate Usable(k: ApiKey) { k.status == StatusActive && k.tenantId != "" && k.botId != "" }

  /** ResolveAPIKey. `hash` is the SHA-256 hex digest and `byHash` the
      repository lookup by hash. */
  function ResolveAPIKey(rawKey: string, hash: string -> string, byHash: string -> Result<ApiKey>): (r: Result<ApiKey>)
    ensures TrimSpace(rawKey) == "" ==> r == Fail(KeyMissing)
    ensures TrimSpace(rawKey) != "" && r.Fail? ==> r.error == KeyInvalid
    ensures r.Ok? <==> TrimSpace(rawKey) != "" && byHash(hash(TrimSpace(rawKey))).Ok? && Usable(byHash(hash(TrimSpace(rawKey))).value)
    ensures r.Ok? ==> r == byHash(hash(TrimSpace(rawKey))) && Usable(r.value)
  {
    var raw := TrimSpace(rawKey);
    if raw == "" then Fail(KeyMissing)
    else
      match byHash(hash(raw))
      case Fail(_) => Fail(KeyInvalid)
      case Ok(k) => if !Usable(k) then Fail(KeyInvalid) else Ok(k)
  }

  /** Surrounding white space on the presented key does not matter. */
  lemma ResolveIgnoresSpace(rawKey: string, hash: string -> string, byHash: string -> Result<ApiKey>)
    ensures ResolveAPIKey(TrimSpace(rawKey), hash, byHash) == ResolveAPIKey(rawKey, hash, byHash)
  {
    TrimSpaceIdempotent(rawKey);
  }

  // ---------------------------------------------------------------------
  // Errors and usage filters

  /** StatusCodeFromError: no error is 200, a kratos error with a positive
      code is that code, anything else is 500. */
  function StatusCodeFromError(err: Option<Error>): (code: int)
    ensures code > 0
    ensures err.None? ==> code == 200
    ensures err.Some? && err.value.Kratos? && err.value.code > 0 ==> code == err.value.code
    ensures err.Some? && !(err.value.Kratos? && err.value.code > 0) ==> code == 500
  {
    match err
    case None => 200
    case Some(Kratos(c, _)) => if c > 0 then c else 500
    case Some(Plain(_)) => 500
  }

  /** Every error the server builds with a status helper reports that status. */
  lemma StatusOfHelpers(reason: string)
    ensures StatusCodeFromError(Some(BadRequest(reason))) == 400
    ensures StatusCodeFromError(Some(Unauthorized(reason))) == 401
    ensures StatusCodeFromError(Some(Forbidden(reason))) == 403
    ensures StatusCodeFromError(Some(NotFound(reason))) == 404
    ensures StatusCodeFromError(Some(TooManyRequests(reason))) == 429
    ensures StatusCodeFromError(Some(InternalServer(reason))) == 500
  {
  }

  /** The part of a usage filter normalizeUsageFilter touches. */
  datatype UsageFilter = UsageFilter(
    apiKeyId: string,
    botId: string,
    apiVersion: string,
    model: string,
    start: int,
    end: int,
    limit: int,
    offset: int)

  /** normalizeUsageFilter with the current time `now` and the default
      window in seconds. */
  function NormalizeUsageFilter(f: UsageFilter, maxLimit: int, window: int, now: int): (g: UsageFilter)
    ensures g.apiKeyId == f.apiKeyId && g.botId == f.botId && g.apiVersion == f.apiVersion && g.model == f.model
    ensures 0 < f.limit <= maxLimit ==> g.limit == f.limit
    ensures !(0 < f.limit <= maxLimit) ==> g.limit == maxLimit
    ensures g.offset >= 0 && (f.offset >= 0 ==> g.offset == f.offset)
    ensures g.start != 0 && g.end != 0 ==> g.start <= g.end
    ensures window > 0 && f.start == 0 && f.end == 0 && now != 0 && now - window != 0 ==>
              g.start == now - window && g.end == now
    ensures (f.start != 0 || f.end != 0) ==>
              (g.start == f.start && g.end == f.end) || (g.start == f.end && g.end == f.start)
  {
    var limit := if f.limit <= 0 || f.limit > maxLimit then maxLimit else f.limit;
    var offset := if f.offset < 0 then 0 else f.offset;
    var (start, end) := if window > 0 && f.start == 0 && f.end == 0 then (now - window, now) else (f.start, f.end);
    var (s, e) := if start != 0 && end != 0 && end < start then (end, start) else (start, end);
    f.(limit := limit, offset := offset, start := s, end := e)
  }

  /** A normalised filter is left as it is. */
  lemma NormalizeUsageFilterIdempotent(f: UsageFilter, maxLimit: int, window: int, now: int)
    ensures NormalizeUsageFilter(NormalizeUsageFilter(f, maxLimit, window, now), maxLimit, window, now)
         == NormalizeUsageFilter(f, maxLimit, window, now)
  {
  }
}
