# RagoDesk core, modelled in Dafny

RagoDesk is a multi-tenant customer-support desk built around
retrieval-augmented generation. Tenants upload documents into knowledge
bases; an ingestion worker parses, chunks and embeds them into a vector
store; bots bound to knowledge bases answer chat messages by retrieving
chunks, reranking them, assessing confidence and asking a language model,
or refusing when the evidence is weak. A Go server (Kratos) exposes a
console API for tenant staff, a platform API for operators and a public
chat API keyed by API keys; a React dashboard drives the console.

This project models the core of that system:

- the dashboard's navigation pruning, route guards, permission cache,
  session storage, request helpers, response normalizers, account-field
  rules and the `useRequest` fetch cell;
- the server's request context (tenant id, claims), HS256 tokens, the JWT
  middleware, sign-in and registration, role-based access control and the
  IAM repository's assignment rules;
- API-key management and its storage (list columns, NULL strings, the rate
  limiter), bot rules, paging clamps, conversations and analytics;
- the knowledge side: source types, text clean-up, chunking, embedding,
  the ingestion queue, object storage, multipart upload, and the knowledge
  base / document / version use cases;
- the answering pipeline: query normalisation, scoring, reranking, prompt
  building, every pipeline step, the response, and its repository;
- the embedding-provider registry and the template LLM;
- the ingester's configuration-source ordering.

Pure code is modelled as datatypes, functions and lemmas. Code that
mutates state is modelled as classes whose methods carry `modifies`
clauses, or as methods with loops proved against specification
functions. Databases, brokers, HTTP, hashing, random numbers and clocks
are parameters: each is a function value or a datatype value handed to
the operation that uses it.

## Model

| member | source | states |
|---|---|---|
| AccessTree.FilterNavItems | apps/dashboard/src/routes/utils.ts:17-33 | the loop returns exactly Prune(items, perms): an item is kept with its pruned children when some child survives, kept bare when it needs no permission or its permission is held, and dropped otherwise |
| AccessTree.PruneAppend | apps/dashboard/src/routes/utils.ts:19-31 | pruning a concatenation prunes each part independently (each item is decided on its own) |
| AccessTree.PruneIsPruned | apps/dashboard/src/routes/utils.ts:17-33 | every surviving item is allowed or has surviving children, at every depth |
| AccessTree.PrunedIsFixed | apps/dashboard/src/routes/utils.ts:17-33 | an already pruned tree is returned unchanged |
| AccessTree.PruneIdempotent | apps/dashboard/src/routes/utils.ts:17-33 | pruning twice is pruning once |
| AccessTree.PruneIsSubsequence | apps/dashboard/src/routes/utils.ts:18-31 | at the top level, the surviving items (children aside) are a subsequence of the input |
| AccessTree.PruneEmbeds | apps/dashboard/src/routes/utils.ts:18-31 | at every depth, pruning only deletes entries: survivors keep their sibling order and fields, and their children embed in the original children |
| AccessTree.ToMenuItem | apps/dashboard/src/routes/utils.ts:35-43 | a menu item copies key, label and icon, and has a submenu exactly when the item has children |
| AccessTree.ToMenuItems | apps/dashboard/src/routes/utils.ts:40 | one menu item per child |
| AccessTree.BuildMenuItems | apps/dashboard/src/routes/utils.ts:12-15 | one menu item per surviving item, with the same keys in the same order |
| AccessTree.BestMatch | apps/dashboard/src/routes/utils.ts:6-8 | finds a key the pathname starts with exactly when one exists, and it is a longest such key (the earliest among equals) |
| AccessTree.ResolveSelectedKey | apps/dashboard/src/routes/utils.ts:5-10 | undefined only for an empty key list; otherwise a longest matching key, or the first key when no key matches |
| AccountRules.NormalizeAccount | apps/dashboard/src/pages/auth/utils.ts:1-3 | the result has no JavaScript white space at either end and is no longer than the input |
| AccountRules.NormalizePhone | apps/dashboard/src/pages/auth/utils.ts:5-7 | the result holds no white space or '-', keeps every other character of the input, and keeps them in order |
| AccountRules.NormalizePhoneIdempotent | apps/dashboard/src/pages/auth/utils.ts:5-7 | normalising a phone number twice is normalising it once |
| AccountRules.NormalizePhoneClean | apps/dashboard/src/pages/auth/utils.ts:5-7 | a number without separators is returned unchanged |
| AccountRules.PhonePatternMeaning | apps/dashboard/src/pages/auth/utils.ts:14 | the phone pattern accepts exactly an optional '+' followed by 6 to 20 digits |
| AccountRules.PhoneIgnoresSeparators | apps/dashboard/src/pages/auth/utils.ts:13-15 | whether a value looks like a phone number does not change when its separators are removed first |
| AccountRules.EmailShape | apps/dashboard/src/pages/auth/utils.ts:9-11 | any x@y.z with non-blank, space-free parts looks like an e-mail address |
| AccountRules.EmailNeedsAt | apps/dashboard/src/pages/auth/utils.ts:9-11 | a value without '@' never looks like an e-mail address |
| AccountRules.ValidateIgnoresPadding | apps/dashboard/src/pages/auth/utils.ts:17-20 | padding an account with white space does not change whether it validates |
| Analytics.NormalizeFilter | apps/server/internal/analytics/biz/analytics.go:189-202 | the bot filter is kept; a limit outside 1..100 becomes 100; with a positive window and neither bound set, the range becomes the window ending now; a reversed range is swapped; so a fully set range always has start <= end |
| Analytics.NormalizeFilterIdempotent | apps/server/internal/analytics/biz/analytics.go:189-202 | once both bounds are set, normalising again changes nothing |
| Analytics.NormalizeQuery | apps/server/internal/analytics/biz/analytics.go:204-213 | the result is a prefix of the trimmed query of at most 1024 characters: the whole trimmed query when it fits, exactly 1024 characters otherwise |
| Analytics.SessionEventType | apps/server/internal/analytics/biz/analytics.go:136-141 | the recorded type is always session_open or session_close, and either of those is kept as given |
| Analytics.Prepared | apps/server/internal/analytics/biz/analytics.go:147-160 | the event gets the given type, a normalised query when it has one, the current time when its time is zero and a fresh id when its id is empty; every other field is unchanged |
| AnalyticsStore.NullInt32 | apps/server/internal/analytics/data/analytics.go:414-419 | a zero rating is stored as NULL and any other rating as itself, so reading back with default 0 gives the rating |
| AnalyticsStore.BoolToInt | apps/server/internal/analytics/data/analytics.go:421-426 | the stored hit flag is 0 or 1, and 1 exactly when the event was a hit |
| AnalyticsStore.RowOf | apps/server/internal/analytics/data/analytics.go:67-85 | the inserted row has the trimmed bot id and event type, NULL for blank session, message and query, hit as 0/1, the rating or NULL, and every other column copied from the event |
| AnalyticsStore.MarksAppend | apps/server/internal/analytics/data/analytics.go:350-364 | the placeholder count of a concatenation is the sum of the parts' counts |
| AnalyticsStore.MarksFree | apps/server/internal/analytics/data/analytics.go:350-364 | text without '?' holds no placeholder |
| AnalyticsStore.AddClause | apps/server/internal/analytics/data/analytics.go:351-353 | appending one filter clause adds exactly one placeholder and appends exactly its argument |
| AnalyticsStore.ApplyEventFilters | apps/server/internal/analytics/data/analytics.go:350-364 | the clauses add as many placeholders as arguments, one each for a non-blank bot, a start and an end, and keep the earlier arguments in front |
| AnalyticsStore.SelectRows | apps/server/internal/analytics/data/analytics.go:95-105 | every selected row belongs to the tenant, is a rag_query event and satisfies the bot and time filters |
| AnalyticsStore.PercentileIndex | apps/server/internal/analytics/data/analytics.go:370-385 | the chosen index is in range; a percentile at or below 0 picks the first value and one at or above 1 picks the last |
| AnalyticsStore.SortInts | apps/server/internal/analytics/data/analytics.go:370 | the latencies are sorted in place into a permutation of themselves |
| AnalyticsStore.ComputePercentile | apps/server/internal/analytics/data/analytics.go:366-385 | 0 for no values; otherwise the value at the percentile index of the sorted values, the array being left sorted and a permutation of its input |
| AnalyticsStore.PercentileOfSorted | apps/server/internal/analytics/data/analytics.go:366-385 | the percentile is one of the values; percentile 0 gives the minimum and percentile 1 the maximum |
| AnalyticsStore.P95OffsetIsPercentile | apps/server/internal/analytics/data/analytics.go:127-131 | the overview's OFFSET for the 95th percentile picks the same position as computePercentile(0.95) |
| AnalyticsStore.AggregateIsSummary | apps/server/internal/analytics/data/analytics.go:245-265 | a day has a bucket exactly when some selected row falls on it, and the bucket holds that day's count, hits, latency sum and latencies |
| AnalyticsStore.BucketRows | apps/server/internal/analytics/data/analytics.go:245-265 | the scanning loop builds exactly the per-day aggregate, lists every bucketed day and leaves no bucket empty |
| AnalyticsStore.DailyOf | apps/server/internal/analytics/data/analytics.go:267-276 | a daily row carries the bucket's totals, its hit rate and mean latency (both 0 for an empty bucket) and the given p95 |
| AnalyticsStore.BotKey | apps/server/internal/analytics/data/analytics.go:323-325 | a blank bot id is stored as "all", any other as given |
| AnalyticsStore.OverviewOf | apps/server/internal/analytics/data/analytics.go:95-124 | total is the number of selected rows, hit and error counts are at most the total, and the rates are count/total (0 when there are no rows) |
| AnalyticsStore.AnalyticsRepo.Insertable | apps/server/internal/analytics/data/analytics.go:47-66 | no connection fails with ErrConnDone, a missing tenant fails, an event of another tenant fails with TENANT_MISMATCH exactly when its tenant is set and differs; an accepted row carries the context's tenant, an id and a time |
| AnalyticsStore.AnalyticsRepo.CreateEvent | apps/server/internal/analytics/data/analytics.go:47-93 | on success exactly one row is appended; on failure the table is unchanged and the error is returned |
| AnalyticsStore.AnalyticsRepo.GetOverview | apps/server/internal/analytics/data/analytics.go:95-147 | a missing tenant fails; otherwise the overview of the selected rows, with p95 0 for no rows and the 95th percentile of their latencies otherwise |
| AnalyticsStore.AnalyticsRepo.RefreshDaily | apps/server/internal/analytics/data/analytics.go:221-279 | a missing tenant fails and changes nothing; otherwise each day with events gets its daily row under the tenant and the bot key, and every other daily row is unchanged |
| AnalyticsStore.AnalyticsRepo.UpsertDays | apps/server/internal/analytics/data/analytics.go:266-277 | the upsert loop writes one matching daily row per bucketed day and leaves every other row alone |
| AnalyticsStore.AnalyticsRepo.UpsertBucket | apps/server/internal/analytics/data/analytics.go:319-348 | one daily row is inserted or replaced under (tenant, bot, day), with the 95th percentile of the bucket's latencies |
| AnalyticsRecording.AnalyticsUsecase.RecordEvent | apps/server/internal/analytics/biz/analytics.go:147-164 | without a repository nothing happens; otherwise the prepared event is inserted when the repository accepts it, and a repository error is swallowed |
| AnalyticsRecording.AnalyticsUsecase.RecordSessionEvent | apps/server/internal/analytics/biz/analytics.go:136-141 | records the event under session_open or session_close, an unknown type becoming session_open |
| AnalyticsRecording.AnalyticsUsecase.GetOverview | apps/server/internal/analytics/biz/analytics.go:166-169 | the overview is computed over the rows selected by the normalised filter |
| ApiClient.RequestHeaders | apps/dashboard/src/services/client.ts:19-30 | the caller's headers are kept as given; Authorization is "Bearer " + token when a token exists and the caller set none; Content-Type is application/json for a non-form body the caller left untyped; no other header is added |
| ApiClient.BuildRequestHeaders | apps/dashboard/src/services/client.ts:24-30 | the spread-then-default construction yields exactly RequestHeaders |
| ApiClient.FetchCallAsWritten | apps/dashboard/src/services/client.ts:31-35 | as written, a caller-supplied headers object replaces the built headers in the fetch options, and credentials default to "include" |
| ApiClient.CallerHeadersDropToken | apps/dashboard/src/services/client.ts:31-35 | with a token and a caller header, the built headers carry Authorization but the headers sent carry neither Authorization nor Content-Type |
| ApiClient.RequestCall | apps/dashboard/src/services/client.ts:31-35 | the corrected call sends the built headers to the given URL with credentials defaulting to "include" |
| ApiClient.RequestCallCarriesToken | apps/dashboard/src/services/client.ts:19-35 | the corrected call always sends the token when there is one, a Content-Type for a non-form body, and every caller header |
| ApiClient.AsWrittenAgreesWithoutCallerHeaders | apps/dashboard/src/services/client.ts:31-35 | without caller headers the code as written and the corrected call send the same request |
| ApiClient.DecodeOk | apps/dashboard/src/services/client.ts:49-59 | a successful envelope with code 0 yields its data; any other code raises with that code, the request id and a truthy message; a payload that is not an envelope is returned as is |
| ApiClient.Decode | apps/dashboard/src/services/client.ts:37-59 | a non-ok response raises with its status, the payload's code and request id, and the payload message, else the status text, else "Request failed"; an ok response is decoded as an envelope, an unparsable body giving null |
| ApiClient.EnvelopeRoundTrip | apps/dashboard/src/services/client.ts:49-57 | wrapping data in an envelope with code 0 and decoding it gives the data back; any other code raises with that code |
| ApiClient.ChatHeaders | apps/dashboard/src/services/publicChat.ts:15-22 | X-Chat-Key is always present (the chat id unless the caller set one); caller headers are kept except an empty Content-Type; a non-form body always gets a non-empty Content-Type, application/json by default; nothing else is added |
| ApiClient.BuildChatHeaders | apps/dashboard/src/services/publicChat.ts:16-22 | the header construction yields exactly ChatHeaders |
| ApiClient.ChatCall | apps/dashboard/src/services/publicChat.ts:23-26 | the chat request sends the built headers (so always X-Chat-Key) and the caller's credentials |
| ApiClient.DecodeChat | apps/dashboard/src/services/publicChat.ts:10-13 | a non-ok response raises with its status, the payload code and message, else "Request failed (<status>)", and no request id; an ok response decodes as in request |
| ApiClient.SessionPath | apps/dashboard/src/services/publicChat.ts:99-105 | the session path is the fixed prefix, the encoded session id and the fixed query, in that order |
| ApiClient.SessionPathInjective | apps/dashboard/src/services/publicChat.ts:102 | with an injective encoder, different session ids give different paths |
| ApiKeys.NormIdempotent | apps/server/internal/apimgmt/biz/apimgmt.go:597 | trimming and lower-casing a value twice is doing it once |
| ApiKeys.DistinctMember | apps/server/internal/apimgmt/biz/apimgmt.go:629-647 | a value is in the normalised list exactly when it is non-blank and some input normalises to it |
| ApiKeys.DistinctNoDups | apps/server/internal/apimgmt/biz/apimgmt.go:629-647 | the normalised list has no duplicates |
| ApiKeys.DistinctNormalised | apps/server/internal/apimgmt/biz/apimgmt.go:629-647 | every listed value is non-blank and already normalised |
| ApiKeys.DistinctOfNormalised | apps/server/internal/apimgmt/biz/apimgmt.go:629-647 | a duplicate-free list of normalised, non-blank values is returned unchanged |
| ApiKeys.ScopesOf | apps/server/internal/apimgmt/biz/apimgmt.go:589-610 | the scope list has no duplicates; it is exactly ["*"] when some scope normalises to "*", and the normalised, de-duplicated list in first-occurrence order otherwise |
| ApiKeys.NormalizeScopes | apps/server/internal/apimgmt/biz/apimgmt.go:589-610 | the loop with its seen map and early return of ["*"] computes exactly ScopesOf |
| ApiKeys.NormalizeVersions | apps/server/internal/apimgmt/biz/apimgmt.go:629-647 | the loop computes exactly the normalised, de-duplicated version list |
| ApiKeys.VersionsIdempotent | apps/server/internal/apimgmt/biz/apimgmt.go:629-647 | normalising a version list twice is normalising it once |
| ApiKeys.ScopesIdempotent | apps/server/internal/apimgmt/biz/apimgmt.go:589-610 | normalising a scope list twice is normalising it once |
| ApiKeys.YieldsDistinct | apps/server/internal/apimgmt/biz/apimgmt.go:629-647 | a normalised value is produced by the normalised list exactly when it is produced by the raw list |
| ApiKeys.ScopeAllowedNormalised | apps/server/internal/apimgmt/biz/apimgmt.go:612-627 | for a non-empty normalised scope list, checking a requirement against it or against the raw list gives the same answer |
| ApiKeys.VersionAllowedNormalised | apps/server/internal/apimgmt/biz/apimgmt.go:649-663 | the same agreement for versions |
| ApiKeys.BlankScopesUnrestricted | apps/server/internal/apimgmt/biz/apimgmt.go:589-627 | a non-empty list of blank scopes normalises to the empty list, which allows every requirement |
| ApiKeys.NormalizeStatus | apps/server/internal/apimgmt/biz/apimgmt.go:578-587 | the status is active or revoked, and active exactly when the trimmed, lower-cased input is "active" |
| ApiKeys.NormalizeStatusIdempotent | apps/server/internal/apimgmt/biz/apimgmt.go:578-587 | normalising a status twice is normalising it once |
| ApiKeys.Prepared | apps/server/internal/apimgmt/biz/apimgmt.go:219-260 | the new key has the trimmed name and bot, the normalised scopes or [rag, conversation], the normalised versions or [v1], quota and QPS clamped at 0, public chat defaulting to true, and status active |
| ApiKeys.InsertWithRetries | apps/server/internal/apimgmt/biz/apimgmt.go:245-269 | at most three inserts; every insert but the last hit DUPLICATE_KEY; the last one's key is returned, or its non-duplicate error, or API_KEY_GENERATE_FAILED after the third duplicate |
| ApiKeys.RetryOutcomeFacts | apps/server/internal/apimgmt/biz/apimgmt.go:245-269 | a returned key is what the last insert stored; a failure is either GENERATE_FAILED or not a duplicate-key error; fewer than three inserts means the last was not a duplicate |
| ApiKeys.CreateAPIKey | apps/server/internal/apimgmt/biz/apimgmt.go:218-271 | a blank name gives API_KEY_NAME_MISSING and a blank bot BOT_ID_MISSING, both without inserting; otherwise the retry outcome for the prepared key |
| ApiKeys.PatchText | apps/server/internal/apimgmt/biz/apimgmt.go:301-303 | a blank supplied name keeps the current one, otherwise the trimmed supplied one |
| ApiKeys.PatchStatus | apps/server/internal/apimgmt/biz/apimgmt.go:304-306 | a blank supplied status keeps the current one, otherwise its normalised form |
| ApiKeys.PatchScopes | apps/server/internal/apimgmt/biz/apimgmt.go:307-309 | an empty supplied list keeps the current scopes, otherwise their normalised form |
| ApiKeys.PatchVersions | apps/server/internal/apimgmt/biz/apimgmt.go:310-312 | an empty supplied list keeps the current versions, otherwise their normalised form |
| ApiKeys.PatchCount | apps/server/internal/apimgmt/biz/apimgmt.go:313-326 | an absent count keeps the current value; a supplied one is clamped at 0 |
| ApiKeys.Patched | apps/server/internal/apimgmt/biz/apimgmt.go:301-326 | identity, owner, hashes and timestamps never change; each supplied field replaces its current value as above; absent fields are kept |
| ApiKeys.PatchedIdempotent | apps/server/internal/apimgmt/biz/apimgmt.go:301-326 | applying the same patch twice is applying it once |
| ApiKeys.EmptyPatchChangesNothing | apps/server/internal/apimgmt/biz/apimgmt.go:291-293 | a patch with no field supplied leaves the key unchanged |
| ApiKeys.ApplyPatch | apps/server/internal/apimgmt/biz/apimgmt.go:301-326 | the field-by-field assignments compute exactly Patched |
| ApiKeys.UpdateAPIKey | apps/server/internal/apimgmt/biz/apimgmt.go:286-328 | a blank id gives API_KEY_ID_MISSING and an empty patch API_KEY_UPDATE_EMPTY, both before reading; a failed read returns its error; otherwise the patched key is stored |
| ApiKeys.ResolveAPIKey | apps/server/internal/apimgmt/biz/apimgmt.go:369-382 | a blank key gives API_KEY_MISSING; success exactly when the hashed trimmed key is found and the key is active with a tenant and a bot; every other failure is API_KEY_INVALID |
| ApiKeys.ResolveIgnoresSpace | apps/server/internal/apimgmt/biz/apimgmt.go:370 | surrounding white space does not change the resolution |
| ApiKeys.StatusCodeFromError | apps/server/internal/apimgmt/biz/apimgmt.go:536-546 | 200 for no error, a kratos error's positive code as is, 500 otherwise; always positive |
| ApiKeys.StatusOfHelpers | apps/server/internal/apimgmt/biz/apimgmt.go:536-546 | the BadRequest, Unauthorized, Forbidden, NotFound, TooManyRequests and InternalServer errors map to 400, 401, 403, 404, 429 and 500 |
| ApiKeys.NormalizeUsageFilter | apps/server/internal/apimgmt/biz/apimgmt.go:665-681 | key, bot, version and model filters are kept; a limit outside 1..max becomes max; a negative offset becomes 0; no bounds become the window ending now; a reversed range is swapped, so a full range is ordered |
| ApiKeys.NormalizeUsageFilterIdempotent | apps/server/internal/apimgmt/biz/apimgmt.go:665-681 | normalising a usage filter twice is normalising it once |
| ApiKeyStore.NullString | apps/server/internal/apimgmt/data/apimgmt.go:541-546 | a blank value is stored as NULL and any other value as its trimmed form |
| ApiKeyStore.NullStringStable | apps/server/internal/apimgmt/data/apimgmt.go:541-546 | storing a stored value again stores the same thing |
| ApiKeyStore.EncodeStringList | apps/server/internal/apimgmt/data/apimgmt.go:548-557 | an empty list is stored as "" and any other list as its JSON array |
| ApiKeyStore.Kept | apps/server/internal/apimgmt/data/apimgmt.go:573-579 | the comma fallback keeps only non-blank parts, never adding any |
| ApiKeyStore.DecodeStringList | apps/server/internal/apimgmt/data/apimgmt.go:559-580 | the decoding loop computes exactly DecodedList; NULL or a blank column decodes to the empty list |
| ApiKeyStore.EncodeDecodeRoundTrip | apps/server/internal/apimgmt/data/apimgmt.go:548-570 | with a JSON codec that round-trips, decoding the encoding of any list gives the list back |
| ApiKeyStore.KeptOfTrimmed | apps/server/internal/apimgmt/data/apimgmt.go:573-579 | parts that are already trimmed and non-blank are all kept |
| ApiKeyStore.CommaListDecodes | apps/server/internal/apimgmt/data/apimgmt.go:571-579 | a comma-joined list of trimmed, comma-free, non-blank items that is not JSON decodes back to those items |
| ApiKeyStore.Hit | apps/server/internal/apimgmt/data/apimgmt.go:514-531 | a limit <= 0 allows without counting; otherwise the counter goes up by one, its TTL is set only on the first increment, and the call fails with 429 and the check's code exactly when the count exceeds the limit |
| ApiKeyStore.CheckAllSole | apps/server/internal/apimgmt/data/apimgmt.go:482-511 | when only the key-QPS check is enabled, the whole check is that one |
| ApiKeyStore.Plan | apps/server/internal/apimgmt/data/apimgmt.go:486-509 | the checks run in the order key QPS, tenant QPS, key quota, tenant quota, and the tenant checks are disabled for a key without a tenant |
| ApiKeyStore.CheckAllRefusal | apps/server/internal/apimgmt/data/apimgmt.go:482-511 | a refusal names the code of an enabled check |
| ApiKeyStore.CheckAllMonotone | apps/server/internal/apimgmt/data/apimgmt.go:482-511 | checking never lowers or removes a counter |
| ApiKeyStore.RateLimiter.CheckLimit | apps/server/internal/apimgmt/data/apimgmt.go:514-531 | an unreachable Redis fails open and changes nothing; otherwise the outcome and the new counters are those of Hit |
| ApiKeyStore.RateLimiter.Check | apps/server/internal/apimgmt/data/apimgmt.go:482-511 | an unreachable Redis fails open; otherwise the four checks run in order and the first failure is returned |
| ApiKeyStore.NewRateLimiter | apps/server/internal/apimgmt/data/apimgmt.go:455-480 | no limiter without an address or a successful ping; otherwise empty counters and the tenant limits, non-positive ones becoming 0 |
| ApiKeyStore.CheckIfConfigured | apps/server/internal/apimgmt/data/apimgmt.go:482-485 | a nil limiter allows every call |
| ApiKeyStore.QpsLimitEnforced | apps/server/internal/apimgmt/data/apimgmt.go:514-531 | with only a key QPS limit n, the first n calls in one window pass and the next one fails with API_QPS_LIMIT |
| ApiKeyStore.ApiKeyTable.DeleteAPIKey | apps/server/internal/apimgmt/data/apimgmt.go:208-227 | a missing tenant fails and changes nothing; deleting a key that is not there gives API_KEY_NOT_FOUND; otherwise exactly that row is removed |
| ApiKeyStore.DeleteKey | apps/server/internal/apimgmt/biz/apimgmt.go:330-336 | a blank key id gives API_KEY_ID_MISSING before the table is touched; otherwise a missing tenant gives the tenant error with no change, and the trimmed id is deleted as above |
| ApiKeyStore.DeleteTwice | apps/server/internal/apimgmt/data/apimgmt.go:222-225 | deleting a key twice succeeds once and then reports not found |
| AuthMiddleware.AdminOperationsWidened | apps/server/internal/middleware/middleware.go:81-92 | every operation the older middleware protects is still protected by the current one, unless it names an auth service |
| AuthMiddleware.BearerToken | apps/server/internal/middleware/middleware.go:30-34 | the token is the trimmed header, with a case-insensitive "bearer " prefix removed and the rest trimmed; it never starts or ends with white space |
| AuthMiddleware.Authenticate | apps/server/internal/middleware/middleware.go:17-49 | a request without a transport or for a non-admin operation passes unchanged; a missing config or secret and a blank token are rejected with ADMIN_UNAUTHORIZED; only a token that parses passes, with its claims (and tenant, when set) in the context |
| AuthMiddleware.AuthMiddleware | apps/server/internal/middleware/middleware.go:17-49 | auth operations always pass; otherwise the middleware is Authenticate with the current admin-operation test |
| AuthMiddleware.LegacyAuthMiddleware | apps/server/internal/server/middleware.go:17-49 | the older middleware passes every operation outside its four admin services and otherwise behaves as Authenticate |
| AuthMiddleware.SignedTokenAdmitted | apps/server/internal/middleware/middleware.go:30-47 | a "Bearer " header carrying a token the server signed with the same secret, with valid claims, admits an admin request and puts those claims in the context |
| AuthMiddleware.AdmittedWhenParsed | apps/server/internal/middleware/middleware.go:38-47 | a token that parses admits the request with its claims |
| AuthMiddleware.BearerOfSigned | apps/server/internal/middleware/middleware.go:30-34 | the bearer token of "Bearer " plus a signed token is that token |
| AuthMiddleware.BearerOfPlain | apps/server/internal/middleware/middleware.go:30-34 | the bearer token of "Bearer " plus any token without surrounding white space is that token |
| Authn.NewAuthSettings | apps/server/internal/authn/biz/auth.go:95-103 | the token lifetime is 24 hours; the secret, issuer and audience are the trimmed configured values, or empty without an auth config |
| Authn.ActiveStatusNormalised | apps/server/internal/authn/biz/auth.go:261-263 | for every status: it is active exactly when its trimmed, lower-cased text is "active", so case and surrounding white space never matter |
| Authn.ActiveStatusExamples | apps/server/internal/authn/biz/auth.go:261-263 | examples: "active" and " Active " are active; "disabled" is not |
| Authn.PrimaryAccount | apps/server/internal/authn/biz/auth.go:254-259 | the account shown is the e-mail when it is not blank, else the phone |
| Authn.SessionClaims | apps/server/internal/authn/biz/auth.go:229-243 | the session claims carry the profile's subject, tenant and roles, the configured issuer, the audience only when configured, and nbf = iat = now, exp = now + TTL |
| Authn.BuildSession | apps/server/internal/authn/biz/auth.go:225-252 | a blank secret fails with JWT_SECRET_MISSING (and only then); a signing failure gives JWT_SIGN_FAILED; a session is the signed claims, the expiry now + TTL and the profile |
| Authn.SessionTokenAccepted | apps/server/internal/authn/biz/auth.go:225-252 | a session token parses back to its claims with the same secret, issuer and audience at any time before it expires |
| Authn.SessionTokenExpires | apps/server/internal/authn/biz/auth.go:225-252 | a session token is refused as expired once its TTL has passed |
| Authn.LookupFailure | apps/server/internal/authn/biz/auth.go:112-117 | an ACCOUNT_AMBIGUOUS lookup error is passed through; every other lookup error becomes LOGIN_FAILED |
| Authn.CheckCredentials | apps/server/internal/authn/biz/auth.go:118-126 | a credential check passes iff the status is active, a hash is stored and the password matches it; an inactive account gives ACCOUNT_DISABLED, any other failure LOGIN_FAILED |
| Authn.ConsoleLogin | apps/server/internal/authn/biz/auth.go:105-139 | a blank account or password gives LOGIN_INVALID; lookup and credential failures are reported as above; a session belongs to an active account whose hash matches and carries its id, tenant, primary account, name and roles |
| Authn.PlatformLogin | apps/server/internal/authn/biz/auth.go:197-223 | a blank account or password gives LOGIN_INVALID; an unknown account LOGIN_FAILED; a session belongs to an active platform admin whose hash matches, with no tenant and the single role platform_admin |
| Authn.RegisterTenantType | apps/server/internal/authn/biz/auth.go:150-156 | a blank type means enterprise; only enterprise and personal are accepted |
| Authn.Registration | apps/server/internal/authn/biz/auth.go:160-178 | the new tenant is active on the free plan with the trimmed name and the chosen type; its admin is active, belongs to it and stores the hash and the trimmed contact fields |
| Authn.ConsoleRegister | apps/server/internal/authn/biz/auth.go:141-195 | a missing tenant name, password or contact gives REGISTER_INVALID; a bad type TENANT_TYPE_INVALID; a session is built from the records the repository created, with the tenant_admin role requested |
| Authn.ConsoleSessionCarriesTenant | apps/server/internal/authn/biz/auth.go:105-139 | a console session token parses back to claims naming the account's tenant |
| BotRules.CreateBotInput | apps/server/internal/bot/biz/bot.go:51-63 | creation needs a non-blank name (BOT_NAME_REQUIRED) and a status that is empty or valid (BOT_STATUS_INVALID); the bot passed on has a trimmed name and description and a valid status, "active" when none was given |
| BotRules.BotIdInput | apps/server/internal/bot/biz/bot.go:65-71 | a blank id gives BOT_ID_REQUIRED; otherwise the trimmed id is used |
| BotRules.UpdateBotInput | apps/server/internal/bot/biz/bot.go:86-97 | an update needs a non-blank id and an empty or valid status; id, name and description are trimmed and nothing else changes |
| BotRules.ListBotsWindow | apps/server/internal/bot/biz/bot.go:73-84 | the page size defaults to 50 and is capped at 200; a negative offset becomes 0 |
| BotRules.BotInputIdempotent | apps/server/internal/bot/biz/bot.go:51-97 | validating a validated bot again changes nothing |
| BotStore.NewRow | apps/server/internal/bot/data/bot.go:30-46 | a new row gets a fresh id when none is given, status active by default, the caller's tenant, and creation time now unless one is set |
| BotStore.Merged | apps/server/internal/bot/data/bot.go:117-137 | an update keeps the stored name, description and status where the new one is blank, keeps the creation time and sets the update time |
| BotStore.BlankUpdateKeepsRow | apps/server/internal/bot/data/bot.go:126-136 | an update with every field blank changes only the update time |
| BotStore.MergedIdempotent | apps/server/internal/bot/data/bot.go:117-137 | applying the same update twice is applying it once, at the later time |
| BotStore.BotTable.GetBot | apps/server/internal/bot/data/bot.go:68-87 | a missing tenant fails; the result is the tenant's row with that id, or BOT_NOT_FOUND |
| BotStore.BotTable.CreateBot | apps/server/internal/bot/data/bot.go:30-66 | a missing tenant fails; an existing (tenant, id) gives BOT_DUPLICATE and changes nothing; otherwise exactly the new row is added |
| BotStore.BotTable.UpdateBot | apps/server/internal/bot/data/bot.go:117-157 | a bot that cannot be read fails with that error and changes nothing; otherwise the merged row replaces it |
| BotStore.BotTable.DeleteBot | apps/server/internal/bot/data/bot.go:159-177 | a missing tenant fails; deleting an absent row gives BOT_NOT_FOUND; otherwise exactly that row is removed |
| BotStore.CreateGetDelete | apps/server/internal/bot/biz/bot.go:51-105 | a bot created with a blank id and status reads back active with its trimmed fields and the fresh id, and is not found after it is deleted |
| Chunking.ClampInt | apps/server/internal/knowledge/biz/chunking.go:149-157 | values below lo become lo, values above hi become hi, others are kept; the result lies in [lo, hi] whenever lo <= hi |
| Chunking.RunEnd | apps/server/internal/knowledge/biz/chunking.go:93-102 | a letter-or-digit run extends as far as the characters continue it and stops at the first that does not |
| Chunking.TokensFrom | apps/server/internal/knowledge/biz/chunking.go:85-108 | every span found lies inside the text and is non-empty |
| Chunking.Tokens | apps/server/internal/knowledge/biz/chunking.go:85-108 | the token spans of a text lie inside it and are non-empty |
| Chunking.SpanOrder | apps/server/internal/knowledge/biz/chunking.go:85-108 | token spans come in text order and do not overlap |
| Chunking.TokensFromOrdered | apps/server/internal/knowledge/biz/chunking.go:85-108 | the spans found from any position are ordered and disjoint |
| Chunking.TokensOrdered | apps/server/internal/knowledge/biz/chunking.go:85-108 | the spans of a text are ordered and pairwise disjoint |
| Chunking.TokensWellShaped | apps/server/internal/knowledge/biz/chunking.go:90-102 | each span is a single CJK character or a maximal run of non-CJK letters and digits |
| Chunking.TokensCover | apps/server/internal/knowledge/biz/chunking.go:85-108 | every letter or digit of the text lies in some span |
| Chunking.ScanRun | apps/server/internal/knowledge/biz/chunking.go:94-101 | the inner loop stops exactly where the run ends |
| Chunking.TokenizeSpans | apps/server/internal/knowledge/biz/chunking.go:85-108 | the scanning loop produces exactly the token spans |
| Chunking.WindowRanges | apps/server/internal/knowledge/biz/chunking.go:70-81 | windows start at the first token, each ends size tokens later or at the last token, and the loop stops at the first window that reaches the end |
| Chunking.WindowStep | apps/server/internal/knowledge/biz/chunking.go:70 | consecutive windows start step tokens apart |
| Chunking.WindowStart | apps/server/internal/knowledge/biz/chunking.go:70 | window k starts at token k * step |
| Chunking.WindowsCover | apps/server/internal/knowledge/biz/chunking.go:70-81 | every token lies in some window |
| Chunking.WindowShape | apps/server/internal/knowledge/biz/chunking.go:56-68 | a non-positive chunk size means all tokens in one window; the overlap is clamped to [0, size - 1]; the step is size minus overlap, at least 1 |
| Chunking.Windows | apps/server/internal/knowledge/biz/chunking.go:47-83 | the windows of a non-empty text start at token 0, end at the last token and each covers a non-empty range |
| Chunking.PartsCount | apps/server/internal/knowledge/biz/chunking.go:69-82 | there is one part per window |
| Chunking.PartsAreWindows | apps/server/internal/knowledge/biz/chunking.go:75-77 | part k is the text from the start of the window's first token to the end of its last |
| Chunking.SplitTextWindows | apps/server/internal/knowledge/biz/chunking.go:47-83 | the parts of a text are exactly the texts of its windows |
| Chunking.SplitCoversTokens | apps/server/internal/knowledge/biz/chunking.go:47-83 | every token of the text is in at least one part |
| Chunking.ShortTextOnePart | apps/server/internal/knowledge/biz/chunking.go:56-81 | a text of at most chunk-size tokens gives a single part from its first to its last token |
| Chunking.WindowsOverlap | apps/server/internal/knowledge/biz/chunking.go:62-71 | consecutive windows share exactly overlap tokens |
| Chunking.WindowParams | apps/server/internal/knowledge/biz/chunking.go:56-68 | the parameter adjustments compute WindowShape |
| Chunking.SplitTextIs | apps/server/internal/knowledge/biz/chunking.go:47-83 | splitting is the window walk with the adjusted size and step |
| Chunking.SplitByTokens | apps/server/internal/knowledge/biz/chunking.go:47-83 | the splitting loop computes SplitText; an empty text or one without tokens gives no parts |
| Chunking.EmitWindows | apps/server/internal/knowledge/biz/chunking.go:69-82 | the window loop emits exactly the parts of the window walk |
| Chunking.Language | apps/server/internal/knowledge/biz/chunking.go:124-130 | "zh" iff at least 10 CJK characters and no fewer than Latin ones; "en" iff at least 10 Latin letters or digits and more than CJK; otherwise "" |
| Chunking.ShortTextHasNoLanguage | apps/server/internal/knowledge/biz/chunking.go:114-131 | a text under 10 characters gets no language |
| Chunking.CountsBounded | apps/server/internal/knowledge/biz/chunking.go:114-123 | each character counts at most once, as CJK or as Latin |
| Chunking.DetectLanguage | apps/server/internal/knowledge/biz/chunking.go:114-131 | the counting loop computes Language of the two counts |
| Chunking.ChunksOf | apps/server/internal/knowledge/biz/chunking.go:19-39 | there are never more chunks than parts |
| Chunking.ChunksOfSound | apps/server/internal/knowledge/biz/chunking.go:19-39 | each chunk is part i trimmed and non-blank, with index i, its deterministic id, its token count, hash and language |
| Chunking.ChunksOfOrdered | apps/server/internal/knowledge/biz/chunking.go:19-39 | chunk indexes strictly increase |
| Chunking.ChunksOfComplete | apps/server/internal/knowledge/biz/chunking.go:19-39 | every non-blank part gives a chunk |
| Chunking.BuildChunks | apps/server/internal/knowledge/biz/chunking.go:14-40 | the chunk size is clamped to [1, 8192] and the overlap to [0, size - 1] before splitting; the loop builds ChunksOf the parts |
| ConsoleApi.Pick | apps/dashboard/src/services/console.ts:228-239 | a chain of `??` yields the first name whose field is neither missing nor null, or the default when every one is |
| ConsoleApi.NormalizeApiKey | apps/dashboard/src/services/console.ts:208-241 | a falsy input gives the blank key item |
| ConsoleApi.PickAlias | apps/dashboard/src/services/console.ts:229 | `input.snake ?? input.camel ?? default` takes the snake_case field when present, else the camelCase alias when present, else the default |
| ConsoleApi.PickPlain | apps/dashboard/src/services/console.ts:231 | `input.name ?? default` takes the field when present, else the default |
| ConsoleApi.ApiKeyAliasRules | apps/dashboard/src/services/console.ts:224-240 | for all twelve fields of a truthy input: id, name, status and scopes read their one name, the other eight read snake_case first, then the camelCase alias, then their default; public_chat_enabled falls back to whether the public chat id is truthy |
| ConsoleApi.NormalizeDocument | apps/dashboard/src/services/console.ts:242-264 | a falsy input gives the blank document, with no created_at; otherwise a present current_version is kept, 0 when neither name is present, and a created_at is present |
| ConsoleApi.DocumentAliasRules | apps/dashboard/src/services/console.ts:254-263 | for all eight fields of a truthy input: id, title and status read their one name; kb_id, source_type, current_version (default 0), updated_at and created_at read snake_case first, then the camelCase alias, then the default; created_at is always present |
| ConsoleApi.NormalizeDocumentVersion | apps/dashboard/src/services/console.ts:265-275 | a falsy input gives the blank version; otherwise version is read as given |
| ConsoleApi.DocumentVersionAliasRules | apps/dashboard/src/services/console.ts:269-274 | for a truthy input: id, version (default 0) and status read their one name; created_at reads created_at, then createdAt, then "" |
| ConsoleApi.NormalizeKnowledgeBaseResponse | apps/dashboard/src/services/console.ts:276-281 | a falsy input gives the blank knowledge base; otherwise the first present of knowledge_base, knowledgeBase, knowledge and kb, and the input itself when none is |
| ConsoleApi.Suffix | apps/dashboard/src/services/console.ts:311 | the query suffix is empty exactly when the query is |
| ConsoleApi.ListPath | apps/dashboard/src/services/console.ts:307-312 | the query is the filter, limit and offset pairs in that order, each present exactly when its value is truthy; the path is the base plus "?" and the query, or the bare base when nothing was set |
| ConsoleApi.ListQueryParams | apps/dashboard/src/services/console.ts:307-311 | the filter, limit and offset are each in the query exactly when truthy, every value in it is truthy, and the query is empty exactly when none is truthy |
| ConsoleApi.UpdateApiKeyBody | apps/dashboard/src/services/console.ts:437-445 | the body holds the id and exactly the patch fields that are defined, under their wire names |
| ConsoleApi.FillFilled | apps/dashboard/src/services/console.ts:438-445 | setting fields with distinct names one after another leaves the id and exactly the defined fields, each with its value |
| ConsoleApi.UpdateDocumentBody | apps/dashboard/src/services/console.ts:351-353 | the body holds the id, and kb_id exactly when it is defined |
| Contexts.WithClaims | apps/server/internal/auth/context.go:8-13 | attaching claims sets them and keeps the tenant and the deadline |
| Tenancy.WithTenantID | apps/server/internal/tenant/tenant.go:14-16 | attaching a tenant id sets it and keeps the claims and the deadline |
| Tenancy.TenantID | apps/server/internal/tenant/tenant.go:19-25 | the tenant is found iff one is attached and it is not empty; otherwise the result is ("", false) |
| Tenancy.RequireTenantID | apps/server/internal/tenant/tenant.go:28-33 | fails with the missing-tenant error exactly when TenantID finds none, and otherwise returns that non-empty id |
| Tenancy.TenantRoundTrip | apps/server/internal/tenant/tenant.go:14-33 | a non-empty tenant id attached to a context is read back; an empty one reads as missing |
| Conversation.LoadRetentionPolicy | apps/server/internal/conversation/biz/conversation.go:309-327 | retention days default to 0 and the purge interval to 60 minutes; only positive configured values replace them |
| Conversation.EscalationReasonMentions | apps/server/internal/conversation/biz/conversation.go:352-355 | for every reason: it is an escalation exactly when its lower-cased text contains "escalat" or "handoff", whatever white space surrounds it |
| Conversation.EscalatedIsEscalation | apps/server/internal/conversation/biz/conversation.go:352-355 | for all surrounding texts, a reason containing any capitalisation of "escalat" is an escalation |
| Conversation.CloseEvents | apps/server/internal/conversation/biz/conversation.go:193-210 | closing writes a close event, followed by an escalation event exactly when the reason is an escalation, both with the trimmed reason |
| Conversation.MessagesOf | apps/server/internal/conversation/data/conversation.go:253-256 | the WHERE clause: only messages of that tenant and session, at most all of them, in the order written |
| Conversation.MessagesOfAppend | apps/server/internal/conversation/data/conversation.go:253-256 | listing messages stored in two batches is listing each batch in turn |
| Conversation.MessagesOfOwn | apps/server/internal/conversation/data/conversation.go:253-256 | a sequence of one session's messages is kept whole by the filter |
| Conversation.InsertByTime | apps/server/internal/conversation/data/conversation.go:257 | inserting a message adds exactly that message |
| Conversation.InsertByTimeOrdered | apps/server/internal/conversation/data/conversation.go:257 | inserting into a history ordered by created_at keeps it ordered |
| Conversation.InsertByTimeBounded | apps/server/internal/conversation/data/conversation.go:257 | inserting keeps every created_at under a bound that the history and the message respect |
| Conversation.ByCreatedAt | apps/server/internal/conversation/data/conversation.go:257 | ORDER BY created_at ASC is a permutation of the messages |
| Conversation.ByCreatedAtSorted | apps/server/internal/conversation/data/conversation.go:257 | the ordered messages have non-decreasing created_at |
| Conversation.ByCreatedAtOrdered | apps/server/internal/conversation/data/conversation.go:257 | messages already in created_at order come out unchanged, so ties keep the order written |
| Conversation.Listing | apps/server/internal/conversation/data/conversation.go:248-286 | a listing is ordered by created_at and is a permutation of that tenant's and session's messages |
| Conversation.ListingOwn | apps/server/internal/conversation/data/conversation.go:248-286 | one session's messages written in created_at order list as written |
| Conversation.ListingPair | apps/server/internal/conversation/data/conversation.go:248-286 | two messages of one session written in created_at order list as written |
| Conversation.Page | apps/server/internal/conversation/data/conversation.go:256-258 | LIMIT/OFFSET returns at most limit items, nothing past the end and the exact slice when it fits |
| Conversation.ConversationUsecase.constructor | apps/server/internal/conversation/biz/conversation.go:109-116 | the use case starts with the loaded retention policy and no purge yet |
| Conversation.ConversationUsecase.GetSessionRow | apps/server/internal/conversation/data/conversation.go:60-91 | a missing tenant fails; otherwise the tenant's session with that id, or SESSION_NOT_FOUND |
| Conversation.ConversationUsecase.MaybePurge | apps/server/internal/conversation/biz/conversation.go:329-350 | a purge is requested only with positive retention, a non-blank tenant and the interval elapsed since the last one; the cutoff is now minus the retention days; nothing else changes |
| Conversation.ConversationUsecase.CreateSession | apps/server/internal/conversation/biz/conversation.go:118-151 | a blank bot id gives BOT_ID_MISSING and changes nothing; otherwise a purge step, then a new session with the bot (trimmed bot and user ids) and an open event |
| Conversation.ConversationUsecase.CloseSession | apps/server/internal/conversation/biz/conversation.go:174-211 | a blank id gives SESSION_ID_MISSING; closing a closed session succeeds with no writes; only a session with the bot can be closed (412 otherwise); closing records the trimmed reason, the time and the close events |
| Conversation.ConversationUsecase.RecordRAGExchange | apps/server/internal/conversation/biz/conversation.go:250-296 | a blank session id does nothing; a bot mismatch gives SESSION_BOT_MISMATCH and a closed session SESSION_CLOSED; otherwise the trimmed user and assistant messages are appended and a refusal event is written when refused |
| Conversation.ConversationUsecase.CreateFeedback | apps/server/internal/conversation/biz/conversation.go:229-248 | blank ids give FEEDBACK_INVALID and a zero rating FEEDBACK_RATING_INVALID; otherwise one feedback row with trimmed comment and correction is appended |
| Conversation.ConversationUsecase.ListMessages | apps/server/internal/conversation/biz/conversation.go:219-227 | a blank id gives SESSION_ID_MISSING; otherwise the session's messages ordered by created_at, paged with the normalised limit and offset; no data changes |
| Conversation.ConversationUsecase.GetSession | apps/server/internal/conversation/biz/conversation.go:153-172 | a blank id gives SESSION_ID_MISSING; the session alone, or with its messages ordered by created_at and paged when asked; no data changes |
| Conversation.Lifecycle | apps/server/internal/conversation/biz/conversation.go:118-296 | a new session takes an exchange, closes, closes again without effect, then refuses a further exchange with SESSION_CLOSED |
| Conversation.PurgeThrottled | apps/server/internal/conversation/biz/conversation.go:329-350 | two calls within one purge interval start only one purge |
| Embedding.Model | apps/server/internal/knowledge/biz/embedding.go:70-75 | the model name is the configured one, or the default when unset; never empty |
| Embedding.Dim | apps/server/internal/knowledge/biz/embedding.go:77-82 | the dimension is the configured one when positive, otherwise the default |
| Embedding.NewEmbeddingProvider | apps/server/internal/knowledge/biz/embedding.go:24-55 | an HTTP provider is built exactly for "openai" or "http" (case and space ignored) with a non-blank endpoint, with trailing slashes removed from it; every other case builds the fake provider; model and dimension are kept |
| Embedding.DeterministicEmbedding | apps/server/internal/knowledge/biz/embedding.go:208-221 | a non-positive dimension gives no vector; otherwise the vector has dim entries |
| Embedding.DeterministicEmbeddingRange | apps/server/internal/knowledge/biz/embedding.go:216-219 | with draws in [0, 1), every entry lies in [-1, 1) |
| Embedding.EmbeddingsUrl | apps/server/internal/knowledge/biz/embedding.go:118-121 | the URL always ends in "/embeddings", added only when missing |
| Embedding.RequestFor | apps/server/internal/knowledge/biz/embedding.go:110-129 | the request goes to the embeddings URL with the model and the inputs, and carries "Bearer " plus the key exactly when a key is set |
| Embedding.Embed | apps/server/internal/knowledge/biz/embedding.go:62-68 | the fake provider returns one deterministic vector per input; the HTTP provider fails with EMBEDDING_ENDPOINT_MISSING without an endpoint, passes transport errors through, fails with EMBEDDING_REQUEST_FAILED outside 2xx, and otherwise returns the decoded vectors, learning its dimension from the first one when unset |
| Embedding.Contents | apps/server/internal/knowledge/biz/embedding.go:187-190 | the texts of a batch are the chunks' contents in order |
| Embedding.Pair | apps/server/internal/knowledge/biz/embedding.go:198-203 | each chunk is paired with the vector at its position |
| Embedding.EmbedFrom | apps/server/internal/knowledge/biz/embedding.go:182-204 | on success every chunk from the start gets a vector, in order; each request holds between 1 and batch-size texts, and the requests sent so far are a prefix of the contents (all of them on success) |
| Embedding.ContentsSplit | apps/server/internal/knowledge/biz/embedding.go:187-190 | the contents of a range are the contents of its two halves |
| Embedding.BatchSize | apps/server/internal/knowledge/biz/embedding.go:177-180 | the batch size is the configured one when positive, otherwise 64 |
| Embedding.EmbedChunks | apps/server/internal/knowledge/biz/embedding.go:170-206 | no chunks means no call and no vectors; a missing embedder becomes the default fake one; on success each chunk gets a vector, in order, and the batches sent are exactly the contents |
| Embedding.FakeEmbedFrom | apps/server/internal/knowledge/biz/embedding.go:62-68 | with the fake provider, embedding always succeeds and each vector is the deterministic embedding of its chunk |
| Embedding.EmbedFromStep | apps/server/internal/knowledge/biz/embedding.go:191-203 | one batch: an embedder error or a count mismatch (EMBEDDING_COUNT_MISMATCH) stops the run; otherwise the batch's pairs are kept and the walk continues from the batch's end |
| FetchCell.RequestCell.constructor | apps/dashboard/src/hooks/useRequest.ts:19-32 | the cell starts with the fallback data, not loading, no error, source empty; enabled unless the option is false; fallback allowed only when asked |
| FetchCell.RequestCell.Run | apps/dashboard/src/hooks/useRequest.ts:42-75 | a disabled cell resets to the fallback with source empty; an enabled one starts a new live run, sets loading and clears the error, keeping the data |
| FetchCell.RequestCell.Cancel | apps/dashboard/src/hooks/useRequest.ts:72-74 | cleaning up a run only marks it dead |
| FetchCell.RequestCell.Activate | apps/dashboard/src/hooks/useRequest.ts:77-84 | the effect cancels the previous run and starts a new one (or resets a disabled cell) |
| FetchCell.RequestCell.Mount | apps/dashboard/src/hooks/useRequest.ts:77-84 | mounting runs the effect once |
| FetchCell.RequestCell.Rerender | apps/dashboard/src/hooks/useRequest.ts:28-40 | a render takes the new fallback and options and re-runs the effect only when the dependencies, enabled or allowFallback changed |
| FetchCell.RequestCell.Unmount | apps/dashboard/src/hooks/useRequest.ts:79-83 | unmounting cancels the effect's run and changes no visible state |
| FetchCell.RequestCell.Reload | apps/dashboard/src/hooks/useRequest.ts:91-94 | reload does nothing when disabled and otherwise starts a new run without cancelling the effect's run |
| FetchCell.RequestCell.Resolve | apps/dashboard/src/hooks/useRequest.ts:56-60 | a dead run's response is ignored; a live one sets the data and source api |
| FetchCell.RequestCell.Reject | apps/dashboard/src/hooks/useRequest.ts:61-66 | a dead run's error is ignored; a live one restores the fallback data, sets the error, and source fallback or empty as the run was started |
| FetchCell.RequestCell.Settle | apps/dashboard/src/hooks/useRequest.ts:67-70 | a live run's completion clears loading; a dead one changes nothing |
| FetchCell.RequestCell.Current | apps/dashboard/src/hooks/useRequest.ts:86-90 | a disabled cell reports not loading and no error; data and source are reported as stored |
| FetchCell.StaleResultIgnored | apps/dashboard/src/hooks/useRequest.ts:51-74 | when deps change while a fetch is in flight, the first run's answer is discarded whether it arrives before or after the second run's, and the second run's answer is shown |
| FetchCell.DisabledNeverFetches | apps/dashboard/src/hooks/useRequest.ts:42-49 | a disabled cell never calls the fetcher and always shows the fallback |
| Guards.RequirePermission | apps/dashboard/src/components/RequirePermission.tsx:11-23 | the skeleton shows exactly while permissions load; afterwards the content shows iff no permission is required or it is granted |
| Guards.FailClosed | apps/dashboard/src/components/RequirePermission.tsx:18-20 | with no permissions granted (as outside a provider) only pages without a required permission render |
| Guards.RequireAuth | apps/dashboard/src/components/RequireAuth.tsx:10-24 | without a token the user goes to the requested scope's login; with a token stored for another scope, to that scope's login; the page renders iff a token exists and the stored scope is absent or matches |
| Guards.ScopeIsolation | apps/dashboard/src/components/RequireAuth.tsx:19-21 | a console session never opens a platform page, and vice versa |
| IamRbac.MatchReflexiveAndStar | apps/server/internal/iam/biz/iam.go:317-320 | "*" grants every code and every code grants itself |
| IamRbac.WildcardMatchesPrefix | apps/server/internal/iam/biz/iam.go:321-324 | "p.*" grants exactly the codes that start with "p.", and not "p" itself |
| IamRbac.PlainCodeMatchesOnlyItself | apps/server/internal/iam/biz/iam.go:317-326 | a code without a wildcard grants only itself |
| IamRbac.Decision | apps/server/internal/iam/biz/iam.go:279-315 | an empty permission always passes; a missing subject and a permission outside the platform and tenant namespaces give RBAC_FORBIDDEN; a tenant_admin passes every tenant permission |
| IamRbac.GrantedMeansMatched | apps/server/internal/iam/biz/iam.go:279-315 | a granted permission had a subject, a known namespace, and either a stored permission that matches it or (for tenant permissions) the tenant_admin role |
| IamRbac.HasRole | apps/server/internal/iam/biz/iam.go:328-335 | the loop finds the role iff it is in the list |
| IamRbac.MatchAny | apps/server/internal/iam/biz/iam.go:292-297 | the loop succeeds iff some stored code grants the target |
| IamRbac.RequirePermission | apps/server/internal/iam/biz/iam.go:279-315 | the method's outcome is Decision; the repository is consulted exactly for platform permissions and for tenant permissions of a non-admin, and only with a subject |
| IamService.CreateTenantType | apps/server/internal/iam/service/iam.go:33-43 | the permission check comes first; a blank type means enterprise; any type but enterprise or personal gives TENANT_TYPE_INVALID |
| IamService.CreatePermissionScope | apps/server/internal/iam/service/iam.go:266-276 | the permission check comes first; a blank scope gives PERMISSION_SCOPE_REQUIRED, a scope other than platform or tenant PERMISSION_SCOPE_INVALID; the trimmed scope is used |
| IamService.ScanPlatformRole | apps/server/internal/iam/service/iam.go:375-382 | the loop finds a platform role iff platform_admin or super_admin is among the roles |
| IamService.EnsureTenantScope | apps/server/internal/iam/service/iam.go:354-366 | no tenant id keeps the context; a platform role may enter any tenant; another caller is refused with TENANT_MISMATCH exactly when the token names a different tenant; otherwise the tenant is attached and the claims kept |
| IamService.NoCrossTenantScope | apps/server/internal/iam/service/iam.go:354-366 | a tenant user can only scope a request to its own tenant |
| IamService.ToTimestamp | apps/server/internal/iam/service/iam.go:384-389 | the zero time converts to no timestamp, any other time to itself |
| IamService.ToTenant | apps/server/internal/iam/service/iam.go:391-403 | a tenant with all identifying fields empty converts to nil; otherwise every field is copied |
| IamService.ToUser | apps/server/internal/iam/service/iam.go:405-418 | a user with id, e-mail, phone and name all empty converts to nil; otherwise every field is copied |
| IamService.ToRole | apps/server/internal/iam/service/iam.go:420-429 | a role with empty id and name converts to nil; otherwise it is copied |
| IamService.ToPermission | apps/server/internal/iam/service/iam.go:431-441 | a permission with all fields empty converts to nil; otherwise it is copied |
| IamStore.InArgs | apps/server/internal/iam/data/iam.go:732-747 | the IN clause always has at least one argument (the single "" when no code is non-empty) |
| IamStore.Placeholders | apps/server/internal/iam/data/iam.go:742-746 | n placeholders are n question marks separated by commas |
| IamStore.BuildInClause | apps/server/internal/iam/data/iam.go:732-747 | the loop keeps the non-empty values in order and emits one placeholder per argument |
| IamStore.MissingPermissions | apps/server/internal/iam/data/iam.go:749-765 | the missing codes are the non-empty requested codes absent from the lookup, each once, in first-request order |
| IamStore.LinkTargets | apps/server/internal/iam/data/iam.go:292-304 | every requested code the lookup returned links its permission id |
| IamStore.IamTables.ByCode | apps/server/internal/iam/data/iam.go:267-286 | the lookup returns only stored permissions of the given scope, and every requested non-empty code stored in that scope |
| IamStore.IamTables.AssignPlatformRolePermissions | apps/server/internal/iam/data/iam.go:245-307 | no codes is a no-op; an unknown role gives PLATFORM_ROLE_NOT_FOUND, an unknown platform code PERMISSION_NOT_FOUND; a failure changes nothing; success adds a link from the role to each requested permission and changes nothing else |
| IamStore.IamTables.AssignRolePermissions | apps/server/internal/iam/data/iam.go:616-685 | a missing tenant fails; no codes is a no-op; a role of another tenant gives TENANT_MISMATCH, an unknown role ROLE_NOT_FOUND; success links the role to each requested tenant permission, all of which exist |
| IamStore.IamTables.AssignRole | apps/server/internal/iam/data/iam.go:438-485 | a role is assigned iff the user and the role both exist in the caller's tenant; a user of another tenant gives TENANT_MISMATCH; success adds exactly that pair; a failure changes nothing |
| Jwt.Decoded | apps/server/internal/auth/jwt.go:38-67 | an empty secret, a token not of three dot-separated parts, a bad encoding, header or payload, an algorithm other than HS256 or a bad signature give ErrInvalidToken; decoded claims come from a verified token |
| Jwt.CheckClaims | apps/server/internal/auth/jwt.go:68-80 | the claims pass iff not expired, not before their start, and matching the expected issuer and audience when given; expiry is checked first (ErrExpiredToken), then not-before (ErrInvalidToken) |
| Jwt.ParseHS256 | apps/server/internal/auth/jwt.go:38-81 | a token that does not decode gives ErrInvalidToken; otherwise the claim checks decide; accepted claims always carry a valid signature |
| Jwt.SignHS256 | apps/server/internal/auth/jwt.go:97-118 | an empty secret fails; otherwise the token is header, payload and the MAC of "header.payload", base64url encoded and joined by dots |
| Jwt.SignThenParse | apps/server/internal/auth/jwt.go:38-118 | a token signed with a secret parses back to its claims with that secret, whenever the claim checks pass |
| Jwt.WrongSecretRejected | apps/server/internal/auth/jwt.go:83-95 | a token checked with a secret whose MAC differs is rejected as invalid |
| Jwt.EncodedHasNoDot | apps/server/internal/auth/jwt.go:111-117 | base64url text never contains a dot, so a signed token splits into exactly three parts |
| Jwt.SignedTokenAlphabet | apps/server/internal/auth/jwt.go:111-117 | a signed token consists of URL-safe characters and dots |
| Knowledge.ListDocumentsQuery | apps/server/internal/knowledge/biz/knowledge.go:246-255 | the kb id is trimmed; a limit outside 1..200 becomes 50 and a negative offset 0 |
| Knowledge.ListDocumentsQueryIdempotent | apps/server/internal/knowledge/biz/knowledge.go:246-255 | normalising a normalised query changes nothing |
| Knowledge.UploadInput | apps/server/internal/knowledge/biz/knowledge.go:328-341 | kb id, title and content are required in that order (KB_ID_MISSING, DOC_TITLE_MISSING, DOC_CONTENT_MISSING); all are trimmed and the source type normalised |
| Knowledge.DocumentIdInput | apps/server/internal/knowledge/biz/knowledge.go:406-410 | a blank document id gives DOC_ID_MISSING; otherwise the trimmed id is used |
| Knowledge.UpdateKnowledgeBaseInput | apps/server/internal/knowledge/biz/knowledge.go:265-275 | a blank id gives KB_ID_MISSING; blank name and description give KB_UPDATE_EMPTY; id and name are trimmed |
| Knowledge.BindInput | apps/server/internal/knowledge/biz/knowledge.go:293-304 | blank bot or kb id is refused (BOT_ID_MISSING first); a weight <= 0 becomes 1 |
| Knowledge.IngestEarlyExits | apps/server/internal/knowledge/biz/knowledge.go:495-511 | a parse failure marks the version and document failed; empty prepared content gives DOC_CONTENT_MISSING and no chunks DOC_CHUNKS_EMPTY, both without writing anything |
| Knowledge.IngestIndexed | apps/server/internal/knowledge/biz/knowledge.go:512-535 | a successful ingestion indexes one embedded chunk per built chunk, in order, with the embedder's model and dimension |
| Knowledge.IngestIndexRefused | apps/server/internal/knowledge/biz/knowledge.go:526-530 | an index failure marks the version and document failed with the vector store's error |
| Knowledge.VersionLocated | apps/server/internal/knowledge/data/knowledge.go:278-298 | a version found by id sits under its own tenant, document and number |
| Knowledge.VersionLocatedByNumber | apps/server/internal/knowledge/data/knowledge.go:300-321 | a version found by number can be found again by its id |
| Knowledge.StatusUpdateKeeps | apps/server/internal/knowledge/biz/knowledge.go:503-535 | the final status writes keep the store well formed, and a failed ingestion falls back to a ready version while a successful one points at the new ready version |
| Knowledge.KnowledgeUsecase.KbRow | apps/server/internal/knowledge/data/knowledge.go:94-113 | a knowledge base of the tenant is found iff stored, otherwise KB_NOT_FOUND |
| Knowledge.KnowledgeUsecase.DocumentRow | apps/server/internal/knowledge/data/knowledge.go:180-210 | a document of the tenant is found iff stored, otherwise DOC_NOT_FOUND |
| Knowledge.KnowledgeUsecase.VersionRow | apps/server/internal/knowledge/data/knowledge.go:278-298 | a version is found by id iff it is stored for the tenant, otherwise DOC_VERSION_NOT_FOUND |
| Knowledge.KnowledgeUsecase.VersionByNumber | apps/server/internal/knowledge/data/knowledge.go:300-321 | a version is found by document and number iff stored, otherwise DOC_VERSION_NOT_FOUND |
| Knowledge.KnowledgeUsecase.constructor | apps/server/internal/knowledge/biz/knowledge.go:200-214 | the use case starts empty, with async ingestion only when a queue exists and it is configured |
| Knowledge.KnowledgeUsecase.EmbedChunks | apps/server/internal/knowledge/biz/embedding.go:170-206 | embedding chunks is Embedding.EmbedChunks with the configured batch size, and keeps the embedder it settled on |
| Knowledge.KnowledgeUsecase.JobRows | apps/server/internal/knowledge/biz/knowledge.go:485-496 | a job without tenant is refused with TENANT_MISSING; otherwise the version's load error, then the document's, is returned, and the rows load exactly when both exist |
| Knowledge.KnowledgeUsecase.ProcessIngestion | apps/server/internal/knowledge/biz/knowledge.go:484-535 | a job without tenant gives TENANT_MISSING; a missing version or document fails without writes; otherwise the step Ingest computes is applied and the outcome is Pass exactly when the version was indexed |
| Knowledge.KnowledgeUsecase.ApplyStep | apps/server/internal/knowledge/biz/knowledge.go:503-535 | the writes of one ingestion step are applied, and documents keep pointing at ready versions |
| Knowledge.KnowledgeUsecase.IngestStepFor | apps/server/internal/knowledge/biz/knowledge.go:495-530 | the ingestion step computed imperatively is the one Ingest describes |
| Knowledge.KnowledgeUsecase.UploadRows | apps/server/internal/knowledge/biz/knowledge.go:328-366 | an upload needs valid input, a tenant and an existing knowledge base; it plans a processing document at version 0 and its version 1 with the trimmed content |
| Knowledge.KnowledgeUsecase.ReindexRows | apps/server/internal/knowledge/biz/knowledge.go:406-428 | a reindex needs an id, a tenant and a document with a current version (DOC_VERSION_MISSING otherwise); it plans the next version number with the current version's text |
| Knowledge.KnowledgeUsecase.CreateVersionRow | apps/server/internal/knowledge/data/knowledge.go:229-276 | a taken (document, number) pair gives DOC_VERSION_DUPLICATE and writes nothing; otherwise exactly that version is stored |
| Knowledge.KnowledgeUsecase.Enqueue | apps/server/internal/knowledge/biz/knowledge.go:473-482 | a job is queued iff async ingestion is enabled and the queue accepts it |
| Knowledge.KnowledgeUsecase.RunJob | apps/server/internal/knowledge/biz/knowledge.go:378-387 | a queued job returns at once; otherwise it is ingested synchronously and its outcome returned |
| Knowledge.KnowledgeUsecase.UploadDocument | apps/server/internal/knowledge/biz/knowledge.go:328-388 | a failed check writes nothing; otherwise the document and version 1 are stored and the job is queued or run, a synchronous success reporting the document ready at version 1 |
| Knowledge.KnowledgeUsecase.ReindexDocument | apps/server/internal/knowledge/biz/knowledge.go:406-453 | a failed check writes nothing; otherwise the next version is stored, the document marked processing, and the job queued or run with the current version as fallback |
| Knowledge.KnowledgeUsecase.RollbackTarget | apps/server/internal/knowledge/biz/knowledge.go:455-471 | a blank id, a version <= 0, a missing tenant or version, and a version that is not ready (DOC_VERSION_NOT_READY) are refused |
| Knowledge.KnowledgeUsecase.RollbackDocument | apps/server/internal/knowledge/data/knowledge.go:468-486 | a rollback sets the current version and the ready status of that one document and nothing else |
| Knowledge.KnowledgeUsecase.CreateKnowledgeBase | apps/server/internal/knowledge/biz/knowledge.go:226-232 | a blank name gives KB_NAME_MISSING; a taken id KB_DUPLICATE; otherwise the knowledge base is stored with the trimmed name and a fresh id when none is given |
| Knowledge.KnowledgeUsecase.BindBotKnowledgeBase | apps/server/internal/knowledge/biz/knowledge.go:293-314 | a binding needs valid input, a tenant and an existing knowledge base, and is appended with a positive weight |
| Knowledge.ReindexAfterRollbackConflicts | apps/server/internal/knowledge/biz/knowledge.go:420-428 | after a rollback below the latest version, reindexing asks for a version number already in use and fails with DOC_VERSION_DUPLICATE |
| Paging.Normalize | apps/server/internal/paging/paging.go:4-12 | the limit lies in 1..200 and the offset is non-negative; an in-range limit and a non-negative offset are kept, any other limit becomes 50 and a negative offset 0 |
| Paging.NormalizeIdempotent | apps/server/internal/paging/paging.go:4-12 | normalising a normalised page changes nothing |
| Parsing.NormalizeSourceType | apps/server/internal/knowledge/biz/parsing.go:20-38 | after trimming and lower-casing, each alias group maps to its canonical type (""/text/plain/txt to text, md/markdown to markdown, html/htm to html, doc/docx to doc, pdf, url/link to url); any other value is returned as it is |
| Parsing.NormalizeSourceTypeIdempotent | apps/server/internal/knowledge/biz/parsing.go:20-38 | normalising a normalised source type changes nothing |
| Parsing.ParseContent | apps/server/internal/knowledge/biz/parsing.go:50-60 | a url is fetched, a doc is decoded from its docx payload, and every other type returns the raw text unchanged |
| Parsing.StripTags | apps/server/internal/knowledge/biz/parsing.go:205-227 | the stripped text contains no angle bracket and is no longer than the input |
| Parsing.StripTagsPlain | apps/server/internal/knowledge/biz/parsing.go:205-227 | text without angle brackets is returned unchanged |
| Parsing.StripTagsInside | apps/server/internal/knowledge/biz/parsing.go:211-224 | everything inside an open tag is dropped |
| Parsing.StripTagsTag | apps/server/internal/knowledge/biz/parsing.go:213-219 | a whole tag becomes two spaces and the text after it is stripped in turn |
| Parsing.StripHtmlTags | apps/server/internal/knowledge/biz/parsing.go:205-227 | the loop over the runes computes the stripped text |
| Parsing.StripLineShape | apps/server/internal/knowledge/biz/parsing.go:187-199 | a stripped markdown line contains no backtick and no character the line did not have |
| Parsing.StripLinesCount | apps/server/internal/knowledge/biz/parsing.go:174-202 | every line except the fence lines yields exactly one output line |
| Parsing.CodeKeptVerbatim | apps/server/internal/knowledge/biz/parsing.go:183-186 | inside a code fence, lines are kept verbatim |
| Parsing.StripLinesKeepOut | apps/server/internal/knowledge/biz/parsing.go:177-201 | stripping never introduces a character absent from every input line |
| Parsing.StrippedMarkdownLines | apps/server/internal/knowledge/biz/parsing.go:170-203 | the stripped document has one line per non-fence input line, and is empty when every line is a fence |
| Parsing.StripMarkdown | apps/server/internal/knowledge/biz/parsing.go:170-203 | the method computes the stripped document |
| Parsing.StripMarkdownLines | apps/server/internal/knowledge/biz/parsing.go:174-202 | the line loop, with its in-code flag, computes the stripped line list |
| Parsing.NormalizeNewlines | apps/server/internal/knowledge/biz/parsing.go:159-160 | after the CRLF and CR replacements no carriage return remains |
| Parsing.NormalizeNewlinesNoCR | apps/server/internal/knowledge/biz/parsing.go:159-160 | text without carriage returns is left unchanged |
| Parsing.JoinWordsCollapsed | apps/server/internal/knowledge/biz/parsing.go:164-165 | joining non-empty, space-free words with one space gives a line with no leading, trailing or doubled whitespace |
| Parsing.CollapseLineShape | apps/server/internal/knowledge/biz/parsing.go:164-165 | a collapsed line has no doubled or outer whitespace and no line break |
| Parsing.CleanedShape | apps/server/internal/knowledge/biz/parsing.go:155-168 | cleaned content has no carriage return and no outer whitespace, and every line in it is collapsed |
| Parsing.CleanContent | apps/server/internal/knowledge/biz/parsing.go:155-168 | the method computes the cleaned content |
| Parsing.PreparedTextShape | apps/server/internal/knowledge/biz/parsing.go:40-48 | prepared content, whatever the source type, has no carriage return and no outer whitespace |
| Parsing.PrepareContentNormalized | apps/server/internal/knowledge/biz/parsing.go:40-48 | markdown is stripped of markup, html of tags, and the result is cleaned |
| PermissionCache.CacheKey | apps/dashboard/src/auth/PermissionContext.tsx:22 | the cache key is the "ragodesk.permissions." prefix followed by the scope name |
| PermissionCache.CacheKeysSeparate | apps/dashboard/src/auth/PermissionContext.tsx:22 | two scopes share a key exactly when they are the same scope, and no permission key collides with the session token or tenant key |
| PermissionCache.AsSet | apps/dashboard/src/auth/PermissionContext.tsx:26 | the cached array becomes a set: no duplicates and exactly the array's members |
| PermissionCache.LoadCached | apps/dashboard/src/auth/PermissionContext.tsx:19-30 | a missing or empty entry, text that does not parse, or a value that is not an array gives the empty set; otherwise the set holds exactly the parsed array's members |
| PermissionCache.SaveThenLoad | apps/dashboard/src/auth/PermissionContext.tsx:32-38 | loading a scope after saving a permission set for it gives that set back |
| PermissionCache.SaveIsolated | apps/dashboard/src/auth/PermissionContext.tsx:32-38 | saving one scope's cache does not change what another scope loads |
| PermissionCache.LoaderFor | apps/dashboard/src/auth/PermissionContext.tsx:64-65 | the platform scope uses the platform permission list and every other scope the console one |
| PermissionCache.CodeSet | apps/dashboard/src/auth/PermissionContext.tsx:70 | the new permission set holds exactly the codes of the response, without duplicates |
| PermissionCache.Granted | apps/dashboard/src/auth/PermissionContext.tsx:10 | a code is granted exactly when it is in the permission set |
| PermissionCache.NoProvider | apps/dashboard/src/auth/PermissionContext.tsx:105-116 | without a provider, the view is the console scope with no permissions, not loading, no error and not stale |
| PermissionCache.PermissionProvider.constructor | apps/dashboard/src/auth/PermissionContext.tsx:47-51 | the first render loads the scope's cache, is loading, has no error, is not stale and has refresh index 0 |
| PermissionCache.PermissionProvider.Activate | apps/dashboard/src/auth/PermissionContext.tsx:56-67 | running the effect retires the previous run, reloads the cache, resets loading, error and stale, and calls the scope's loader |
| PermissionCache.PermissionProvider.Mount | apps/dashboard/src/auth/PermissionContext.tsx:56-88 | mounting runs the effect once for the current scope |
| PermissionCache.PermissionProvider.Refresh | apps/dashboard/src/auth/PermissionContext.tsx:52-54 | refresh increments the refresh index and so re-runs the effect |
| PermissionCache.PermissionProvider.ChangeScope | apps/dashboard/src/auth/PermissionContext.tsx:88 | the same scope changes nothing; a new scope re-runs the effect for that scope |
| PermissionCache.PermissionProvider.Unmount | apps/dashboard/src/auth/PermissionContext.tsx:85-87 | the cleanup marks the current run inactive and leaves the state as it is |
| PermissionCache.PermissionProvider.Succeed | apps/dashboard/src/auth/PermissionContext.tsx:68-74 | a response for an inactive run is ignored; otherwise the permissions become the response codes, are saved under the run's scope, and stale is cleared |
| PermissionCache.PermissionProvider.Fail | apps/dashboard/src/auth/PermissionContext.tsx:75-79 | a failure of an inactive run is ignored; otherwise the error is the message and the view is stale exactly when the cache loaded by that run was non-empty |
| PermissionCache.PermissionProvider.Settle | apps/dashboard/src/auth/PermissionContext.tsx:80-83 | completion of an active run clears loading and nothing else |
| PermissionCache.PermissionProvider.View | apps/dashboard/src/auth/PermissionContext.tsx:90-100 | the context value exposes the scope, loading, error, stale flag and exactly the codes in the permission set |
| PermissionCache.FailureKeepsCache | apps/dashboard/src/auth/PermissionContext.tsx:56-83 | with a non-empty cached set, a failing load leaves the cached permissions granted, marks them stale and reports the error |
| IngestionQueue.RetryCount | apps/server/internal/knowledge/data/queue.go:238-257 | missing headers, a missing x-retry entry, a value of another type or a string that is not an integer give 0; integer values and integer strings give their value |
| IngestionQueue.CloneHeaders | apps/server/internal/knowledge/data/queue.go:259-265 | the clone has the same keys and values as the headers, and is empty for nil headers |
| IngestionQueue.RetryHeaderRoundTrip | apps/server/internal/knowledge/data/queue.go:186-187 | setting x-retry on a clone makes the retry count read back that value and keeps every other header |
| IngestionQueue.RetryHeaderFromString | apps/server/internal/knowledge/data/queue.go:250-253 | a retry count stored as its decimal string reads back as the same count |
| IngestionQueue.BackoffDoubles | apps/server/internal/knowledge/data/queue.go:182-185 | each retry after the first doubles the delay, and the second delay is twice the first |
| IngestionQueue.FailureDisposition | apps/server/internal/knowledge/data/queue.go:179-202 | a failed job is requeued exactly when its retry count is below the maximum, with the count plus one and the backoff delay; otherwise it is dead-lettered with the count unchanged |
| IngestionQueue.FailureRunShape | apps/server/internal/knowledge/data/queue.go:179-202 | a job that always fails is requeued once per remaining retry, with growing counts and delays, and then dead-lettered with the maximum count |
| IngestionQueue.EnqueuePublication | apps/server/internal/knowledge/data/queue.go:120-126 | Enqueue publishes the encoded job to the ingestion queue with empty headers and no expiration |
| IngestionQueue.RabbitDeliveryShape | apps/server/internal/knowledge/data/queue.go:166-206 | an undecodable body is nacked without requeue; a failed job is republished with its body and updated x-retry, to the retry queue with the backoff as expiration or to the dead-letter queue; a failed publish nacks with requeue |
| IngestionQueue.DecodeRedisPayload | apps/server/internal/knowledge/data/queue.go:421-433 | a wrapped payload naming a document is used with its retry count; otherwise the bare job is used with retry 0; text that is neither is an error |
| IngestionQueue.DecodeEncodedPayload | apps/server/internal/knowledge/data/queue.go:421-426 | decoding an encoded payload that names a document gives it back |
| IngestionQueue.RedisDelivery | apps/server/internal/knowledge/data/queue.go:372-387 | an undecodable payload is dropped; a passing job is done; a failing job is requeued with retry plus one and the backoff delay below the maximum, and dead-lettered at it |
| IngestionQueue.RedisQueue.constructor | apps/server/internal/knowledge/data/queue.go:324-332 | a new queue has the given retry limit, backoff and codec, and empty lists and timers |
| IngestionQueue.RedisQueue.Enqueue | apps/server/internal/knowledge/data/queue.go:335-341 | Enqueue appends the encoded job with retry 0 to the tail of the list |
| IngestionQueue.RedisQueue.ConsumeOne | apps/server/internal/knowledge/data/queue.go:361-419 | one worker step pops the tail of the list; a requeue without delay is pushed back, a delayed one becomes a timer, and a dead letter is appended to the dead-letter list |
| IngestionQueue.RedisQueue.FireTimer | apps/server/internal/knowledge/data/queue.go:403-407 | a fired timer pushes its payload to the tail of the list and is removed |
| IngestionQueue.EnqueueThenConsume | apps/server/internal/knowledge/data/queue.go:335-361 | the job just enqueued is the next one a worker pops |
| IngestionQueue.Configured | apps/server/internal/knowledge/data/queue.go:453-479 | an integer in the environment wins; otherwise a positive configured value; otherwise the default |
| IngestionQueue.ResolveRuntimeConfig | apps/server/internal/knowledge/data/queue.go:449-496 | the retry limit lies in 0..10 (negative becomes 3, above 10 becomes 10), the backoff is non-negative (negative becomes 500 ms), and the worker count lies in 1..32 |
| IngestionQueue.SelectQueue | apps/server/internal/knowledge/data/queue.go:49-118 | RabbitMQ is used exactly when it is configured and reachable; otherwise Redis when configured and reachable; otherwise no queue |
| RagHelpers.WithTimeout | apps/server/internal/rag/biz/helpers.go:9-20 | the tenant and claims are kept; a non-positive timeout keeps the context; the deadline never moves later than an existing one nor beyond now plus the timeout, and is now plus the timeout when no earlier deadline applies |
| RagHelpers.WithTimeoutNests | apps/server/internal/rag/biz/helpers.go:9-20 | nested step timeouts give a deadline within both |
| RagHelpers.AlignedWeight | apps/server/internal/rag/biz/helpers.go:24-28 | a query's weight is its positive given weight, and 1 when there is none; it is always positive |
| RagHelpers.AlignQueryWeights | apps/server/internal/rag/biz/helpers.go:22-31 | exactly one weight per query, each the aligned weight and so positive |
| RagHelpers.DedupeQueries | apps/server/internal/rag/biz/helpers.go:33-52 | the result is empty exactly when the input is |
| RagHelpers.BuildDedupe | apps/server/internal/rag/biz/helpers.go:33-52 | the loop with its seen set computes the deduplicated list |
| RagHelpers.DedupeFromShape | apps/server/internal/rag/biz/helpers.go:36-47 | kept queries are trimmed, not blank, not seen before and have pairwise different lower-case keys, and every non-blank query's key is seen or represented |
| RagHelpers.KeptCons | apps/server/internal/rag/biz/helpers.go:45-46 | a trimmed, non-blank, unseen query put in front of queries kept with its key seen keeps every query trimmed, unseen and of a distinct key |
| RagHelpers.CoversSkip | apps/server/internal/rag/biz/helpers.go:37-44 | skipping a blank or already-seen query loses no key that needs a representative |
| RagHelpers.CoversCons | apps/server/internal/rag/biz/helpers.go:45-46 | a kept query represents its own key, so every non-blank query stays seen or represented |
| RagHelpers.DedupeQueriesShape | apps/server/internal/rag/biz/helpers.go:33-52 | the result has distinct keys and covers every non-blank query; when some query is non-blank every result is the trimmed form of the first input with its key, in input order; when all are blank the result is the first query as given |
| RagHelpers.DedupeFromFirst | apps/server/internal/rag/biz/helpers.go:36-47 | the loop keeps, for each key, the trimmed text of the first non-blank input with that key, at strictly increasing input positions, and never a key seen before |
| RagHelpers.FirstOfKeyShift | apps/server/internal/rag/biz/helpers.go:37-44 | a skipped blank or already-seen head query leaves the first-of-key positions of the rest valid once moved past it |
| RagHelpers.FirstOfKeyCons | apps/server/internal/rag/biz/helpers.go:45-46 | a kept head query becomes the first entry, at position 0, ahead of the first-of-key entries of the rest |
| RagHelpers.DedupeFromInputs | apps/server/internal/rag/biz/helpers.go:36-47 | every kept query is the trimmed form of some input query |
| QueryNormalize.NormalizeQuery | apps/server/internal/rag/biz/normalize.go:8-30 | a blank question normalises to the empty string |
| QueryNormalize.BuildNormalized | apps/server/internal/rag/biz/normalize.go:8-30 | the rune loop, with its pending-space flag, computes the normalised question |
| QueryNormalize.CollapseShape | apps/server/internal/rag/biz/normalize.go:15-28 | the collapsed text holds only lower-case letters, digits and single spaces, and starts without a space after a separator |
| QueryNormalize.TrimKeepsShape | apps/server/internal/rag/biz/normalize.go:29 | trimming keeps the text clean and single-spaced |
| QueryNormalize.NormalizeShape | apps/server/internal/rag/biz/normalize.go:8-30 | a normalised question holds only letters, digits and single inner spaces, with no space at either end |
| QueryNormalize.CollapseClean | apps/server/internal/rag/biz/normalize.go:15-28 | collapsing already clean, single-spaced text leaves it unchanged |
| QueryNormalize.NormalizeIdempotent | apps/server/internal/rag/biz/normalize.go:8-30 | normalising a normalised question changes nothing |
| Prompt.BuildNormalizedForPrompt | apps/server/internal/rag/biz/prompt.go:93-113 | the rune loop computes the whitespace-squeezed text |
| Prompt.SqueezeShape | apps/server/internal/rag/biz/prompt.go:101-111 | squeezed text has no two adjacent whitespace characters, and none at the start after a space |
| Prompt.SqueezeNonSpace | apps/server/internal/rag/biz/prompt.go:101-111 | squeezing keeps every non-whitespace character, in order |
| Prompt.NormalizeForPromptShape | apps/server/internal/rag/biz/prompt.go:93-113 | the result has single spaces only, no whitespace at either end, and the same non-whitespace characters as the input |
| Prompt.NormalizeForPromptIdempotent | apps/server/internal/rag/biz/prompt.go:93-113 | normalising twice is normalising once |
| Prompt.TruncateText | apps/server/internal/rag/biz/prompt.go:47-53 | the trimmed text when the limit is not positive or it fits; otherwise its first limit characters and "..." |
| Prompt.TruncateKeepsOut | apps/server/internal/rag/biz/prompt.go:47-53 | truncation adds no character other than the dots |
| Prompt.Snippet | apps/server/internal/rag/biz/prompt.go:43 | a snippet has at most 1203 characters and no line break |
| Prompt.NoNewline | apps/server/internal/rag/biz/prompt.go:93-113 | normalised text has no line break |
| Prompt.BlockLines | apps/server/internal/rag/biz/prompt.go:35-45 | when ids and section have no line break, a context block is exactly two lines: the header and the snippet |
| Prompt.Consider | apps/server/internal/rag/biz/prompt.go:62-79 | a chunk is taken only when it is known, has non-blank content whose fingerprint is unseen, and its document has fewer than 3 blocks so far |
| Prompt.SelectContext | apps/server/internal/rag/biz/prompt.go:55-58 | no ranked chunks or no chunk metadata gives no context |
| Prompt.SelectContextLoop | apps/server/internal/rag/biz/prompt.go:55-85 | the loop with its seen set and per-document counts computes the selected context |
| Prompt.SelectFromSize | apps/server/internal/rag/biz/prompt.go:80-82 | the selection stops at the remaining room |
| Prompt.SelectFromRanked | apps/server/internal/rag/biz/prompt.go:62-79 | every selected block is the metadata of a ranked chunk |
| Prompt.FromRankedCons | apps/server/internal/rag/biz/prompt.go:63-79 | a taken item's non-blank chunk, put in front of blocks drawn from the ranked items, keeps every block a non-blank ranked chunk |
| Prompt.SelectFromFresh | apps/server/internal/rag/biz/prompt.go:67-75 | selected blocks have pairwise different content fingerprints |
| Prompt.SelectFromPerDoc | apps/server/internal/rag/biz/prompt.go:71-78 | no document contributes more than 3 blocks |
| Prompt.PicksShift | apps/server/internal/rag/biz/prompt.go:71 | blocks picked in order from the tail of the ranked list are picked in order from the whole list, one position further on |
| Prompt.PicksCons | apps/server/internal/rag/biz/prompt.go:78 | the head item's chunk at position 0 in front of blocks picked at later positions keeps the picks in ranked order |
| Prompt.SelectFromOrder | apps/server/internal/rag/biz/prompt.go:71-83 | the selected blocks are the chunks of ranked items at strictly increasing positions, so they keep the ranked order |
| Prompt.SelectContextShape | apps/server/internal/rag/biz/prompt.go:55-85 | at most 12 blocks, at most 3 per document, every block from the ranked list, no two with the same content fingerprint, and the blocks in ranked order (chunks of ranked items at strictly increasing positions) |
| Prompt.Rendered | apps/server/internal/rag/biz/prompt.go:22-25 | one rendered block per selected chunk |
| Prompt.WritePrompt | apps/server/internal/rag/biz/prompt.go:17-33 | the builder writes exactly the prompt |
| Prompt.WriteBlocks | apps/server/internal/rag/biz/prompt.go:22-25 | the loop writes each block followed by a line break |
| Prompt.BlocksNumbered | apps/server/internal/rag/biz/prompt.go:22-25 | the block of the i-th selected chunk is numbered i + 1 and sits in order between its neighbours |
| Prompt.PromptShape | apps/server/internal/rag/biz/prompt.go:17-33 | the prompt starts with the instructions and "Context:", ends with the trimmed question and "Answer:", and holds the no-context line when nothing was selected |
| Rerank.SanitizeStringList | apps/server/internal/rag/biz/steps_rerank.go:218-228 | the loop computes the sanitized list |
| Rerank.SanitizeShape | apps/server/internal/rag/biz/steps_rerank.go:218-228 | every kept item is trimmed and non-blank, and the list never grows |
| Rerank.SanitizeFixed | apps/server/internal/rag/biz/steps_rerank.go:218-228 | a list already trimmed and without blanks is left unchanged |
| Rerank.SanitizeKeeps | apps/server/internal/rag/biz/steps_rerank.go:218-228 | every non-blank item survives in trimmed form |
| Rerank.SanitizeKeepsOut | apps/server/internal/rag/biz/steps_rerank.go:218-228 | sanitizing introduces no character that no item had |
| Rerank.IndexOf | apps/server/internal/rag/biz/steps_rerank.go:165 | the first position of the character, or -1 when it does not occur |
| Rerank.LastIndexOf | apps/server/internal/rag/biz/steps_rerank.go:166 | the last position of the character, or -1 when it does not occur |
| Rerank.ParseRerankOrder | apps/server/internal/rag/biz/steps_rerank.go:156-181 | the parsed order is trimmed with no blanks, and blank text gives no order |
| Rerank.ParseFallbackSplits | apps/server/internal/rag/biz/steps_rerank.go:172-180 | when no JSON array decodes, no id contains a newline, carriage return, comma, semicolon or space |
| Rerank.FieldsOfJoin | apps/server/internal/rag/biz/steps_rerank.go:172-179 | splitting ids joined by commas gives the ids back |
| Rerank.ParseCommaList | apps/server/internal/rag/biz/steps_rerank.go:156-181 | a plain comma-separated list of ids parses to those ids |
| Rerank.ById | apps/server/internal/rag/biz/steps_rerank.go:187-190 | the id index maps each candidate's id to a candidate with that id, and every candidate's id is indexed |
| Rerank.ByIdDistinct | apps/server/internal/rag/biz/steps_rerank.go:187-190 | with distinct ids, each candidate is found under its own id |
| Rerank.Remaining | apps/server/internal/rag/biz/steps_rerank.go:202-207 | the candidates not named are never more than the input |
| Rerank.RepeatedIdDuplicates | apps/server/internal/rag/biz/steps_rerank.go:193-201 | as written, the order ["a", "a"] over candidates a and b yields a, a, b: three candidates from two |
| Rerank.NamedFrom | apps/server/internal/rag/biz/steps_rerank.go:193-201 | the seen set only grows while the named ids are taken |
| Rerank.ApplyRerankOrderLoop | apps/server/internal/rag/biz/steps_rerank.go:183-209 | the two loops, with the first one corrected to skip ids already taken, compute the corrected reordered list |
| Rerank.IndexById | apps/server/internal/rag/biz/steps_rerank.go:187-190 | the loop builds the id index |
| Rerank.TakeNamed | apps/server/internal/rag/biz/steps_rerank.go:191-201 | the corrected first loop collects each named candidate once, with its id |
| Rerank.AppendRemaining | apps/server/internal/rag/biz/steps_rerank.go:202-207 | the second loop appends the unnamed candidates in their ranked order |
| Rerank.NamedFromItems | apps/server/internal/rag/biz/steps_rerank.go:193-201 | named candidates come from the index, have distinct ids, and each adds one id to the seen set |
| Rerank.NamedFromSeen | apps/server/internal/rag/biz/steps_rerank.go:193-201 | the seen set holds exactly the ids taken, and every id of the order that is indexed is taken |
| Rerank.RemainingMembers | apps/server/internal/rag/biz/steps_rerank.go:202-207 | a candidate remains exactly when it was ranked and its id was not named |
| Rerank.RemainingDistinct | apps/server/internal/rag/biz/steps_rerank.go:202-207 | the remaining candidates keep distinct ids |
| Rerank.RemainingSize | apps/server/internal/rag/biz/steps_rerank.go:202-207 | with distinct ids, remaining plus named is the number ranked |
| Rerank.ApplyPermutes | apps/server/internal/rag/biz/steps_rerank.go:183-209 | with distinct ids, reordering is a permutation: same length, same members, distinct ids |
| Rerank.ApplyNamedFirst | apps/server/internal/rag/biz/steps_rerank.go:183-209 | the named candidates come first, followed by the others in their ranked order |
| Rerank.NamedAgree | apps/server/internal/rag/biz/steps_rerank.go:193-201 | for an order without repeated ids, the corrected and the as-written loops take the same candidates |
| Rerank.AsWrittenAgrees | apps/server/internal/rag/biz/steps_rerank.go:183-209 | for an order without repeated ids, the as-written and the corrected reordering agree |
| Rerank.Rescore | apps/server/internal/rag/biz/steps_rerank.go:22-33 | the text score is the content overlap, raised to 1.2 times the section overlap, and at most 1.2; the combined score is the vector score for weight 0 or less, the text score for weight 1 or more, and lies between them otherwise |
| Rerank.Rescored | apps/server/internal/rag/biz/steps_rerank.go:22-33 | every candidate is rescored in place, in order |
| Rerank.RescoreAll | apps/server/internal/rag/biz/steps_rerank.go:22-33 | the loop rescores every candidate |
| Rerank.RerankedShape | apps/server/internal/rag/biz/steps_rerank.go:15-39 | reranking keeps the length, sorts by descending score, is a permutation of the rescored list, keeps every search result and its vector score, and keeps ids distinct |
| Rerank.SortDescSorted | apps/server/internal/rag/biz/steps_rerank.go:34-36 | sorting an already sorted list changes nothing |
| Rerank.RerankZeroWeight | apps/server/internal/rag/biz/steps_rerank.go:15-39 | with weight 0 or less and a list already sorted by vector score, reranking only recomputes text scores |
| Rerank.CrossEncoderCandidates | apps/server/internal/rag/biz/steps_rerank.go:83-87 | the cross-encoder sees the first 8 candidates, or all when there are fewer |
| Rerank.CrossEncoderTimeout | apps/server/internal/rag/biz/steps_rerank.go:91-109 | the timeout is a fifth of the LLM timeout clamped to 1200..2500 ms, capped by the remaining deadline; it is 0, skipping the call, exactly when less than a millisecond remains |
| Rerank.CrossEncoderRerank | apps/server/internal/rag/biz/steps_rerank.go:69-130 | with fewer than 2 candidates, no LLM, a fake model or no time left nothing changes; a failed call is an error; an empty parsed order changes nothing |
| Rerank.CrossEncoderPermutes | apps/server/internal/rag/biz/steps_rerank.go:124-129 | with distinct ids, the cross-encoder only permutes the candidates |
| Rerank.Assess | apps/server/internal/rag/biz/steps_rerank.go:41-61 | confidence is recomputed on the final list and lies in 0..1; the answer is refused exactly when nothing is ranked or confidence is below the threshold; the cross-encoder runs only for more than one candidate below the threshold |
| Rerank.AssessPermutes | apps/server/internal/rag/biz/steps_rerank.go:41-61 | with distinct ids, assessment only permutes the candidates, and a non-empty list is refused exactly when confidence is below the threshold |
| Scoring.Best | apps/server/internal/rag/biz/scoring.go:20-29 | the best entry of each id is a candidate with that non-empty id |
| Scoring.FirstSeenKeys | apps/server/internal/rag/biz/scoring.go:20-33 | the ids in first-seen order are distinct and are exactly the kept ids |
| Scoring.BestIsMaximal | apps/server/internal/rag/biz/scoring.go:21-29 | every candidate with an id is kept under it, with a score no higher than the kept one |
| Scoring.Insert | apps/server/internal/rag/biz/scoring.go:34-36 | inserting keeps the multiset plus the new item and keeps a descending list sorted |
| Scoring.SortDesc | apps/server/internal/rag/biz/scoring.go:34-36 | the sorted list is a permutation of the input in descending score order |
| Scoring.Merged | apps/server/internal/rag/biz/scoring.go:30-33 | one entry per kept id, each the best candidate for it |
| Scoring.RankAndFilter | apps/server/internal/rag/biz/scoring.go:16-41 | the method computes the ranked list, and empty input gives an empty result |
| Scoring.RankedShape | apps/server/internal/rag/biz/scoring.go:16-41 | the result is sorted by descending score, has distinct non-empty ids, holds the best candidate of each id, and has topK entries when topK is positive and smaller than the number of ids |
| Scoring.RankedKeepsTop | apps/server/internal/rag/biz/scoring.go:16-41 | a candidate's id survives truncation, or every kept entry scores at least as high |
| Scoring.Clamp01 | apps/server/internal/rag/biz/scoring.go:64-69 | the value clamped into 0..1, unchanged inside it |
| Scoring.Confidence | apps/server/internal/rag/biz/scoring.go:43-71 | the confidence lies in 0..1, and is 0 for an empty list |
| Scoring.ComputeConfidence | apps/server/internal/rag/biz/scoring.go:43-71 | the loop over the top three scores computes the confidence |
| Scoring.SumMonotone | apps/server/internal/rag/biz/scoring.go:51-54 | raising scores pointwise never lowers their sum |
| Scoring.ConfidenceMonotone | apps/server/internal/rag/biz/scoring.go:43-71 | raising scores pointwise never lowers the confidence |
| Scoring.CombineScores | apps/server/internal/rag/biz/scoring.go:73-81 | weight 0 or less gives the vector score, weight 1 or more the text score, and the result always lies between the two |
| Scoring.MaxReal | apps/server/internal/rag/biz/scoring.go:123-128 | the larger of the two values |
| Scoring.AcceptMembers | apps/server/internal/rag/biz/scoring.go:110-119 | every accepted token comes from the fields and is at least 2 bytes long |
| Scoring.AcceptSize | apps/server/internal/rag/biz/scoring.go:110-119 | no more tokens than the limit are accepted |
| Scoring.Words | apps/server/internal/rag/biz/scoring.go:105-107 | every field consists of letters and digits only |
| Scoring.TokenSet | apps/server/internal/rag/biz/scoring.go:101-121 | the token set holds words of at least 2 bytes, at most the limit of them (64 when not positive) |
| Scoring.BuildTokenSet | apps/server/internal/rag/biz/scoring.go:101-121 | the method computes the token set |
| Scoring.TakeTokens | apps/server/internal/rag/biz/scoring.go:108-120 | the counting loop accepts exactly the tokens of the specification |
| Scoring.AcceptMonotone | apps/server/internal/rag/biz/scoring.go:110-119 | a larger limit accepts at least the same tokens |
| Scoring.OverlapScore | apps/server/internal/rag/biz/scoring.go:83-99 | the overlap lies in 0..1, and is 0 when either token set is empty |
| Scoring.Share | apps/server/internal/rag/biz/scoring.go:92-98 | the matched fraction lies in 0..1, is 0 for an empty set, and 1 when every question token occurs in the content |
| Scoring.OverlapOfItself | apps/server/internal/rag/biz/scoring.go:83-99 | a question with tokens overlaps itself fully |
| Scoring.DeriveRetrieveThreshold | apps/server/internal/rag/biz/scoring.go:130-139 | 0 for a non-positive threshold, a fifth of it up to 1, and 0.2 from 1 on |
| Pipeline.QueryOfShape | apps/server/internal/rag/biz/steps_retrieve.go:31-34 | the query of a non-blank message is non-blank and trimmed, falling back to the trimmed message when normalisation leaves nothing |
| Pipeline.DedupeSingle | apps/server/internal/rag/biz/steps_retrieve.go:35 | deduplicating the single query keeps it |
| Pipeline.InitContext | apps/server/internal/rag/biz/steps_retrieve.go:14-45 | a blank bot id gives BOT_ID_MISSING, then a blank message MESSAGE_MISSING; otherwise both are trimmed, a non-positive topK or threshold falls back to the defaults, and the context starts with one query of weight 1 and nothing retrieved |
| Pipeline.ResolveContext | apps/server/internal/rag/biz/steps_retrieve.go:47-66 | a refusing context passes through; a lookup failure is returned; otherwise the bound knowledge bases are stored and no binding means refusing |
| Pipeline.EmbedContext | apps/server/internal/rag/biz/steps_retrieve.go:68-97 | a refusing context passes through; no vectors gives EMBEDDING_EMPTY and a count different from the queries EMBEDDING_COUNT_MISMATCH; otherwise one vector per query is stored, the first as the query vector |
| Pipeline.KbWeight | apps/server/internal/rag/biz/steps_retrieve.go:148-151 | a knowledge base's weight is its positive weight, or 1 |
| Pipeline.HitsSound | apps/server/internal/rag/biz/steps_retrieve.go:152-163 | hits come from the results, keep everything when there is no minimum, never fall below the minimum, and score the result times the base weight times the query weight |
| Pipeline.HitsComplete | apps/server/internal/rag/biz/steps_retrieve.go:153-163 | every result at or above the minimum becomes a hit |
| Pipeline.OverKbsShape | apps/server/internal/rag/biz/steps_retrieve.go:126-171 | searching the bases of one query keeps the error count and the first error consistent and only adds hits; blank base ids are skipped |
| Pipeline.OverQueriesShape | apps/server/internal/rag/biz/steps_retrieve.go:120-173 | searching every query keeps the same tally and only adds hits |
| Pipeline.RetrieveContext | apps/server/internal/rag/biz/steps_retrieve.go:99-196 | a refusing context passes through; otherwise only the ranking changes, and it is sorted by score with distinct non-empty ids, at most topK entries, all drawn from the gathered hits |
| Pipeline.RetrieveOutcome | apps/server/internal/rag/biz/steps_retrieve.go:179-195 | retrieval fails exactly when nothing was gathered and some search failed, with the first error; kept scores are at least the derived minimum; with only blank bases the ranking is empty |
| Pipeline.CollectChunkIds | apps/server/internal/rag/biz/steps_retrieve.go:207-218 | the loop computes the chunk id list |
| Pipeline.ChunkIdsShape | apps/server/internal/rag/biz/steps_retrieve.go:207-218 | the chunk ids are distinct, come from the ranking, and include every non-empty ranked id |
| Pipeline.LoadChunksContext | apps/server/internal/rag/biz/steps_retrieve.go:198-228 | a refusing context or an empty ranking passes through; a load failure is returned; otherwise only the chunk metadata changes |
| Pipeline.RerankContext | apps/server/internal/rag/biz/steps_rerank.go:15-39 | a refusing context or an empty ranking passes through; otherwise only the ranking changes, keeping its length, search results, vector scores and distinct ids, sorted by the new score |
| Pipeline.AssessContext | apps/server/internal/rag/biz/steps_rerank.go:41-61 | confidence is that of the final ranking and lies in 0..1; the context refuses exactly when it already refused, nothing is ranked or confidence is below the threshold, with the refusal message as reply |
| Pipeline.AssessKeeps | apps/server/internal/rag/biz/steps_rerank.go:41-61 | assessment only permutes a ranking with distinct ids |
| Pipeline.PromptContext | apps/server/internal/rag/biz/steps_generate.go:13-21 | a refusing context passes through; otherwise only the prompt changes, and it has the instructions at the start and the question at the end |
| Pipeline.LlmContext | apps/server/internal/rag/biz/steps_generate.go:23-45 | a refusing context passes through; a generation failure is returned; otherwise only the reply changes, to the trimmed answer |
| Pipeline.PickString | apps/server/internal/rag/biz/rag.go:586-591 | the primary value when it is not blank, otherwise the fallback |
| Pipeline.BuildReferences | apps/server/internal/rag/biz/rag.go:564-584 | one reference per ranked chunk, ranked from 1, with its id, score, a snippet of at most 203 characters, and the document ids from the metadata or the search result |
| Pipeline.CollectReferences | apps/server/internal/rag/biz/rag.go:564-584 | the loop computes the reference list |
| Pipeline.BuildResponse | apps/server/internal/rag/biz/steps_generate.go:47-60 | a missing context gives RAG_CONTEXT_MISSING; otherwise the trimmed reply, or the refusal message when it is blank, with the context's confidence and one reference per ranked chunk |
| Pipeline.UntilAssess | apps/server/internal/rag/biz/rag.go:232-254 | a missing bot id or message is rejected, and the confidence after assessment lies in 0..1 |
| Pipeline.Staged | apps/server/internal/rag/biz/rag.go:232-254 | after every step a missing bot id or message is still rejected and the confidence lies in 0..1 |
| Pipeline.Answer | apps/server/internal/rag/biz/rag.go:232-254 | a missing bot id or message is rejected, the confidence lies in 0..1, and the reply is never blank when the refusal message is not |
| Pipeline.RefusalSkipsLlm | apps/server/internal/rag/biz/steps_generate.go:23-26 | once assessment refuses, the LLM's answer does not matter and the reply is the refusal message |
| Pipeline.UntilAssessIgnoresLlm | apps/server/internal/rag/biz/rag.go:237-243 | the steps up to assessment do not depend on the LLM |
| Pipeline.ReplyBeforeAssess | apps/server/internal/rag/biz/steps_rerank.go:55-59 | before the LLM runs, the reply is empty or the refusal message, and it is the refusal message whenever the context refuses |
| Pipeline.RefusedResponse | apps/server/internal/rag/biz/steps_generate.go:47-60 | a context whose reply is the refusal message answers with that message, trimmed unless blank, and with the context's confidence |
| Pipeline.NoKnowledgeRefuses | apps/server/internal/rag/biz/steps_retrieve.go:62-64 | a bot bound to no knowledge base is answered with the refusal message, confidence 0 and no references |
| Pipeline.CollectHits | apps/server/internal/rag/biz/steps_retrieve.go:152-163 | the loop over search results computes the hits |
| Pipeline.SearchKbs | apps/server/internal/rag/biz/steps_retrieve.go:126-172 | the loop over knowledge bases computes the gathered hits and errors |
| Pipeline.GatherScored | apps/server/internal/rag/biz/steps_retrieve.go:120-173 | the nested loops over queries and bases compute the gathered hits and errors |
| Pipeline.RagContext.constructor | apps/server/internal/rag/biz/steps_retrieve.go:37-44 | a new context holds the request, topK, threshold, query, queries and weights, with nothing retrieved |
| Pipeline.RagContext.Resolve | apps/server/internal/rag/biz/steps_retrieve.go:47-66 | the resolve step applied to the context in place; a failure leaves it unchanged |
| Pipeline.RagContext.Embed | apps/server/internal/rag/biz/steps_retrieve.go:68-97 | the embed step applied in place; a failure leaves the context unchanged |
| Pipeline.RagContext.Retrieve | apps/server/internal/rag/biz/steps_retrieve.go:99-196 | the retrieve step applied in place; a failure leaves the context unchanged |
| Pipeline.RagContext.LoadChunks | apps/server/internal/rag/biz/steps_retrieve.go:198-228 | the chunk-loading step applied in place; a failure leaves the context unchanged |
| Pipeline.RagContext.RerankCandidates | apps/server/internal/rag/biz/steps_rerank.go:15-39 | the rerank step applied in place |
| Pipeline.RagContext.CrossEncode | apps/server/internal/rag/biz/steps_rerank.go:69-130 | the cross-encoder reorders the ranking in place when it succeeds and reports whether the call failed |
| Pipeline.RagContext.AssessCandidates | apps/server/internal/rag/biz/steps_rerank.go:41-61 | the assess step applied in place |
| Pipeline.RagContext.ComposePrompt | apps/server/internal/rag/biz/steps_generate.go:13-21 | the prompt step applied in place |
| Pipeline.RagContext.AskLlm | apps/server/internal/rag/biz/steps_generate.go:23-45 | the LLM step applied in place; a failure leaves the context unchanged |
| Pipeline.RagContext.Respond | apps/server/internal/rag/biz/steps_generate.go:47-60 | the response built from the context |
| Pipeline.NewContext | apps/server/internal/rag/biz/steps_retrieve.go:14-45 | a context is created exactly when the request is valid, and holds the initial state; otherwise the validation error is returned |
| Pipeline.RunPipeline | apps/server/internal/rag/biz/rag.go:232-254 | running the steps in place on one context gives exactly the specified answer |
| RagStore.NewRagRepo | apps/server/internal/rag/data/rag.go:25-41 | a vector client exists exactly when the driver is qdrant with an endpoint; the collection is the configured one, or ragdesk_chunks when blank |
| RagStore.ResolveBotKnowledgeBases | apps/server/internal/rag/data/rag.go:43-76 | a missing tenant is an error; a blank bot id gives no bindings; otherwise the bindings of the tenant and trimmed bot |
| RagStore.BlankBotSkipsDatabase | apps/server/internal/rag/data/rag.go:48-51 | a blank bot id never reaches the database |
| RagStore.CopyPoints | apps/server/internal/rag/data/rag.go:94-103 | one search result per point, copying its fields |
| RagStore.Search | apps/server/internal/rag/data/rag.go:78-105 | a missing tenant is an error, a missing vector client VECTORDB_MISSING, a blank base id no results; otherwise the points for the tenant and trimmed base id, converted one by one |
| RagStore.BlankKbSkipsVectorDb | apps/server/internal/rag/data/rag.go:86-89 | a blank base id never reaches the vector database |
| RagStore.PlaceholdersOfMarks | apps/server/internal/rag/data/rag.go:149-157 | n joined marks hold n placeholders |
| RagStore.ChunkQueryPlaceholders | apps/server/internal/rag/data/rag.go:156-157 | the chunk query holds one placeholder for the tenant and one per chunk id |
| RagStore.BuildChunkQuery | apps/server/internal/rag/data/rag.go:148-159 | the arguments are the tenant followed by the chunk ids, and the query has exactly as many placeholders as arguments |
| RagStore.ByChunkId | apps/server/internal/rag/data/rag.go:122-138 | every row is keyed by its chunk id and every entry comes from the rows |
| RagStore.ByChunkIdLast | apps/server/internal/rag/data/rag.go:137 | a chunk id repeated in the rows keeps its last row |
| RagStore.KeyChunks | apps/server/internal/rag/data/rag.go:122-138 | the row loop builds the chunk map |
| RagStore.LoadChunks | apps/server/internal/rag/data/rag.go:107-143 | a missing tenant is an error; no ids give an empty map; otherwise the query's failure is returned, or the rows keyed by chunk id |
| RagStore.LoadChunksFrom | apps/server/internal/rag/data/rag.go:107-143 | the method computes the chunk map |
| SessionStore.GetToken | apps/dashboard/src/auth/storage.ts:4-6 | the token is present exactly when its key is stored |
| SessionStore.GetTenantId | apps/dashboard/src/auth/storage.ts:16-18 | the tenant id is present exactly when its key is stored |
| SessionStore.SetToken | apps/dashboard/src/auth/storage.ts:8-10 | the token reads back as the value set, and every other key, the tenant id included, is unchanged |
| SessionStore.ClearToken | apps/dashboard/src/auth/storage.ts:12-14 | the token is gone and every other key is unchanged |
| SessionStore.SetTenantId | apps/dashboard/src/auth/storage.ts:20-22 | the tenant id reads back as the value set, and every other key, the token included, is unchanged |
| SessionStore.ClearTenantId | apps/dashboard/src/auth/storage.ts:24-26 | the tenant id is gone and every other key is unchanged |
| ObjectStorage.NewObjectStorage | apps/server/internal/knowledge/data/storage.go:74-138 | no configuration or a blank endpoint gives noop; a file:// endpoint or a path-like one (leading "/" or ".", or a second byte ":" after an ASCII first character) gives local storage under that directory; S3 needs a non-path endpoint, access key, secret key and bucket, and a client that could be built |
| ObjectStorage.Put | apps/server/internal/knowledge/data/storage.go:24-72 | noop and local storage without a directory return ""; local storage returns file:// and the joined path; S3 returns s3://bucket/key with the leading slash removed |
| ObjectStorage.PutUri | apps/server/internal/knowledge/data/storage.go:24-126 | a successful put returns "" exactly for noop, a file:// URI for local storage and an s3:// URI ending in the object key for S3 |
| ObjectStorage.RawUri | apps/server/internal/knowledge/data/knowledge.go:244-252 | a given URI wins, trimmed; otherwise non-empty raw text is put under tenant/…/document/…/version/N.txt when storage exists, and a failed put leaves the URI empty |
| UploadFile.Ext | apps/server/internal/knowledge/service/upload_file.go:98 | the extension is empty or starts with the last dot and is a suffix of the name, with no dot or slash after it |
| UploadFile.ExtOfName | apps/server/internal/knowledge/service/upload_file.go:98 | a name ending in a dot and a plain extension has that extension |
| UploadFile.ExtOfDotless | apps/server/internal/knowledge/service/upload_file.go:98 | a name without dots has no extension |
| UploadFile.ExtOfLower | apps/server/internal/knowledge/service/upload_file.go:98 | lower-casing and taking the extension commute |
| UploadFile.SourceTypeOfExt | apps/server/internal/knowledge/service/upload_file.go:99-114 | .pdf, .doc, .docx, .md/.markdown and .html/.htm map to their types, and everything else is text |
| UploadFile.InferSourceType | apps/server/internal/knowledge/service/upload_file.go:97-115 | the source type is that of the lower-cased extension |
| UploadFile.InferCaseInsensitive | apps/server/internal/knowledge/service/upload_file.go:97-115 | inference ignores letter case |
| UploadFile.InferFromSuffix | apps/server/internal/knowledge/service/upload_file.go:97-115 | a name's extension alone decides its type, in any letter case |
| UploadFile.InferDotless | apps/server/internal/knowledge/service/upload_file.go:97-115 | a name without an extension is text |
| UploadFile.DetectContentType | apps/server/internal/knowledge/service/upload_file.go:117-124 | the MIME type of a known extension, otherwise the type sniffed from the payload |
| UploadFile.PrepareFile | apps/server/internal/knowledge/service/upload_file.go:61-83 | a read error is returned and an empty file gives DOC_CONTENT_EMPTY; otherwise the payload is capped at 10 MiB, the given source type or the inferred one is used, and the trimmed header content type or the detected one |
| UploadFile.UploadAllItems | apps/server/internal/knowledge/service/upload_file.go:60-92 | a successful upload has one item per file, each the result of uploading that file's prepared request |
| UploadFile.EmptyFileFails | apps/server/internal/knowledge/service/upload_file.go:71-73 | an empty file fails the whole upload, with DOC_CONTENT_EMPTY when the files before it succeeded |
| UploadFile.UploadEach | apps/server/internal/knowledge/service/upload_file.go:60-92 | the file loop computes the specified result |
| UploadFile.EnsureConsoleTenant | apps/server/internal/knowledge/service/upload_file.go:126-154 | a context with a tenant passes; without JWT configuration or a bearer token the request is unauthorized; success always carries a tenant; failures are ADMIN_UNAUTHORIZED or TENANT_MISSING |
| UploadFile.SignedConsoleToken | apps/server/internal/knowledge/service/upload_file.go:134-153 | a valid signed token with a tenant admits the request with its claims and tenant; one without a tenant gives TENANT_MISSING |
| UploadFile.ConsoleAgreesWithMiddleware | apps/server/internal/knowledge/service/upload_file.go:126-154 | for an admin operation the upload handler admits a request exactly when the authentication middleware admits it with a tenant, and with the same context |
| UploadFile.UploadPlan | apps/server/internal/knowledge/service/upload_file.go:31-58 | the tenant check comes first, then the permission, then the form: an unreadable form gives DOC_UPLOAD_INVALID, no files DOC_UPLOAD_EMPTY; files come from "files", else "file", and several files drop the title |
| UploadFile.UploadDocumentFile | apps/server/internal/knowledge/service/upload_file.go:31-95 | the handler fails with the plan's error or uploads every planned file, giving at least one item on success |
| Ingester.Ext | apps/server/cmd/ingester/main.go:125 | the extension is empty or starts with a dot and is a suffix of the path, with no slash and no further dot |
| Ingester.ExtOfSuffix | apps/server/cmd/ingester/main.go:125-126 | a name ending in a dot and a plain suffix has that suffix as extension |
| Ingester.LastElement | apps/server/cmd/ingester/main.go:135 | the last element is a suffix of the path with no slash |
| Ingester.Base | apps/server/cmd/ingester/main.go:135 | the base of a path is never empty |
| Ingester.BaseOfJoin | apps/server/cmd/ingester/main.go:129 | the base of a directory joined with a plain name is that name |
| Ingester.LastElementOfName | apps/server/cmd/ingester/main.go:129 | after a slash, the last element is the name that follows |
| Ingester.ConfigPriorityCases | apps/server/cmd/ingester/main.go:146-156 | a base name containing ".local." has priority 2, config.yaml or config.yml priority 0, and every other file 1 |
| Ingester.LexLessAsym | apps/server/cmd/ingester/main.go:135 | string order is asymmetric |
| Ingester.LexLessTotal | apps/server/cmd/ingester/main.go:135 | any two different strings are ordered one way or the other |
| Ingester.LexLessTrans | apps/server/cmd/ingester/main.go:135 | string order is transitive |
| Ingester.BeforeAsym | apps/server/cmd/ingester/main.go:131-138 | the sort comparison is asymmetric |
| Ingester.NotBeforeTrans | apps/server/cmd/ingester/main.go:131-138 | incomparability under the sort comparison is transitive |
| Ingester.SortedByPriority | apps/server/cmd/ingester/main.go:131-138 | in a sorted list priorities never decrease, and equal priorities are in order of lower-cased base name |
| Ingester.ConfigFiles | apps/server/cmd/ingester/main.go:119-130 | exactly the non-directory entries with a .yaml or .yml extension, in any letter case, joined onto the directory |
| Ingester.YamlEntryKept | apps/server/cmd/ingester/main.go:121-129 | every .yaml or .yml file is kept |
| Ingester.CollectConfigFiles | apps/server/cmd/ingester/main.go:119-130 | the entry loop computes the configuration file list |
| Ingester.BeforeStrictWeak | apps/server/cmd/ingester/main.go:131-138 | the comparison is a strict weak order, as sort.Slice requires |
| Ingester.Insert | apps/server/cmd/ingester/main.go:131-138 | inserting adds the item to the multiset |
| Ingester.InsertSorted | apps/server/cmd/ingester/main.go:131-138 | inserting into a sorted list keeps it sorted |
| Ingester.SortSlice | apps/server/cmd/ingester/main.go:131-138 | the sort returns a sorted permutation of its input |
| Ingester.LoadConfigSources | apps/server/cmd/ingester/main.go:107-144 | a failed stat is returned; a file is the only source; a failed listing is returned; a directory gives its configuration files, sorted by priority and name |
| Providers.ProviderFor | apps/server/internal/ai/provider/embedding.go:40-49 | the provider keeps the configuration; a registered key uses its factory; a blank name means "fake"; anything unregistered falls back to the fake provider |
| Providers.ProviderRegistry.RegisterProvider | apps/server/internal/ai/provider/embedding.go:31-37 | the registry gains the trimmed, lower-cased key unless it is blank or the factory is nil, and keys stay non-empty and lower-case |
| Providers.ProviderRegistry.NewProvider | apps/server/internal/ai/provider/embedding.go:40-49 | the method builds exactly the specified provider from the current registry |
| Providers.ProviderRegistry.RegisterBuiltins | apps/server/internal/ai/provider/template.go:59-62 | the init registrations of fake.go, openai.go (openai and http), deepseek.go and template.go add exactly those five keys |
| Providers.BuiltinKeys | apps/server/internal/ai/provider/embedding.go:32 | the built-in names are already their own registry keys |
| Providers.RegisterThenBuild | apps/server/internal/ai/provider/embedding.go:31-49 | after registering a name, a configuration with the same key builds from that factory; registering a key twice keeps the second factory |
| Providers.UnregisteredFallsBack | apps/server/internal/ai/provider/embedding.go:45-48 | an unregistered key falls back to the fake provider |
| Providers.IgnoredRegistration | apps/server/internal/ai/provider/embedding.go:33-35 | a blank name or a nil factory leaves the registry unchanged |
| Providers.TemplateEmbed | apps/server/internal/ai/provider/template.go:24-30 | one vector per input, each of the configured dimension (none when it is not positive), and equal inputs get equal vectors |
| Providers.DeterministicEmbedding | apps/server/internal/ai/provider/template.go:40-53 | the vector has the configured dimension and is drawn from the text alone |
| Providers.TruncateText | apps/server/internal/ai/provider/template.go:88-93 | the text unchanged when the limit is not positive or it fits; otherwise its first limit characters and "..." |
| Providers.TruncateIdempotent | apps/server/internal/ai/provider/template.go:88-93 | truncating twice with the same limit is truncating once |
| Providers.TemplateGenerate | apps/server/internal/ai/provider/template.go:70-79 | the reply starts with "RAG response (template): ", holds the trimmed prompt or "No input provided." truncated to 180 characters, and reports zero usage |
| Providers.TemplateReplyNotBlank | apps/server/internal/ai/provider/template.go:70-79 | the template reply is never blank |
| Providers.TemplateModelName | apps/server/internal/ai/provider/template.go:64-86 | the model is the trimmed configured name, or template-llm-v1 when that is blank |

## Left out

- I/O, the network and foreign services are parameters, not models: SQL queries, Redis, RabbitMQ, Qdrant, MinIO/S3, HTTP fetches, `localStorage` failures, `os.Stat`/`os.ReadDir` (a `PathInfo` value) and `filepath.Join` cleaning.
- Cryptography and encodings are parameters: SHA-256, HMAC, base64, bcrypt, UUIDs, random numbers, JSON encoding and decoding, and the docx/XML reader.
- Clocks are parameters, and `time.Duration` overflow is not modelled.
- Concurrency is not modelled. The errgroup fan-out of retrieval runs as sequential loops, goroutine workers run as single steps, and React renders run as method calls.
- Go map iteration order is not modelled. `rankAndFilter` and `RefreshDaily` walk keys in first-seen order, and the results do not depend on it except for ties.
- float32 and float64 values are modelled as reals, so rounding is not modelled.
- Character classes cover a fixed part of Unicode. White space is the full Unicode White_Space set for Go (`IsSpace`) and the JavaScript `\s` set (`IsJsSpace`). Letters are the ASCII and Latin-1 letters and the CJK ideographs, so letters of other scripts (Greek, Cyrillic, Arabic, …) are not letters here. Digits are ASCII. Numbers add the Latin-1 superscripts and fractions. Punctuation and symbols are the ASCII ones.
- Lower-casing (`LowerChar`) maps the ASCII capitals and the Latin-1 capitals U+00C0..U+00DE except U+00D7. Capitals beyond Latin-1 are not lower-cased, and there is no special casing (such as the final sigma).
- Ingester.SortSlice: `sort.Slice` is not stable, and the model is an insertion sort, so the order among equal keys may differ. Keys are equal only when two base names differ only in letter case.
- Rerank.RerankedShape: `sort.SliceStable` keeps ties in input order; the model sorts by descending score but does not state tie order.
- Rerank.ApplyRerankOrder: the corrected definition skips ids already taken; the as-written loop is kept as `ApplyRerankOrderAsWritten` (see Findings).
- Rerank.ApplyRerankOrderLoop: the corrected reorder. Its first loop skips an id it has already taken; the loop at steps_rerank.go:193-201 appends that candidate again.
- Rerank.TakeNamed: the corrected first loop, which takes each named candidate once (`id !in seen`); the source's loop takes it once per mention.
- Rerank.CrossEncoderRerank: reorders with the corrected `ApplyRerankOrder`. A reply that repeats an id, such as ["a", "a"] over a and b, ranks a, b here; the source ranks a, a, b.
- Rerank.CrossEncoderPermutes: the permutation holds for the corrected reorder only. The distinct-ids requirement is on the candidates and does not stop the source's duplication, which comes from the reply.
- Rerank.AssessPermutes: the permutation holds for the corrected reorder only, as for `CrossEncoderPermutes`.
- Rerank.Assess: uses the corrected reorder through `CrossEncoderRerank`, so a candidate named twice by the cross-encoder is not duplicated. `Rerank.AsWrittenAgrees` shows that both reorders agree whenever the reply repeats no id.
- Pipeline.AssessKeeps: the permutation holds for the corrected reorder only.
- Pipeline.AssessContext: uses the corrected reorder through `Rerank.Assess`.
- Pipeline.RagContext.CrossEncode: uses the corrected reorder through `Rerank.CrossEncoderRerank`.
- Pipeline.Answer: uses the corrected reorder through the assessment step.
- Pipeline.RunPipeline: uses the corrected reorder through the assessment step, so a pipeline run never duplicates a candidate that the cross-encoder names twice.
- Analytics.NormalizeQuery counts characters, not UTF-8 bytes, at the 1024 cut, and is not claimed idempotent, because a cut that ends in a space changes on the second pass.
- Providers.TruncateText counts characters, not bytes.
- Providers.TemplateGenerate counts characters, not bytes.
- Prompt.TruncateText counts characters, not bytes.
- Prompt.Fingerprint: the SHA-256 content fingerprint is modelled as the lower-cased normalised text itself. So two different contents never share a fingerprint here, while a hash collision could merge them in the source.
- Providers.DeterministicEmbedding takes the seeded generator as the `draw` parameter. The PCG generator seeded from SHA-256 is not modelled.
- RegisterLLMProvider and the LLM registry are not modelled. The `LLMUsage` fields are assumed, because llm.go is not part of this model.
- rag.go holds older copies of the pipeline steps and helpers. The model follows steps_retrieve.go, steps_rerank.go and steps_generate.go, and cites rag.go only for runPipeline, buildReferences and pickString.
- knowledge.go holds older copies of the chunking, parsing and embedding helpers. They are modelled once, from chunking.go, parsing.go and embedding.go.
- The Eino graph wiring (`buildPipeline`) and `SendMessage`'s overall timeout are not modelled. The graph is the same step sequence as runPipeline.
- Loading options from configuration files and the environment (`loadRAGOptions`, `env*`) is not modelled. Options are a datatype value.
- API-key management not modelled: List, Get, Rotate, RegeneratePublicChatID, the Authorize* checks, RecordUsage, and the usage list, summary and CSV export. Key generation and hashing are parameters.
- Analytics not modelled: ListTopQuestions, ListKBGaps and ListDaily are SQL aggregations, and the Redis realtime counters (recordRealtime) are left out.
- Conversation ListSessions is not modelled. It is an SQL ORDER BY over the session table.
- Knowledge not modelled: GetKnowledgeBase, ListKnowledgeBases, ListBotKnowledgeBases, the UpdateKnowledgeBase repository write, DeleteKnowledgeBase, DeleteDocument, UnbindBotKnowledgeBase and GetDocument. Only their input checks are modelled, where they have any.
- Knowledge.ReindexAfterRollbackConflicts: reindexing after a rollback asks for version current+1, which may already exist, and the request then fails with DOC_VERSION_DUPLICATE. The model states this failure but has no corrected numbering, because choosing the next free version number would need the whole version table.
- Contexts: `WithClaims` with nil claims is not modelled separately, since a nil claims value behaves like absent claims.
- Jwt: JSON marshal failures of claims are not modelled, because the claims types always marshal.
- Jwt.Sound: the JSON codec of the claims is a parameter, and `Sound` assumes that unmarshalling exactly inverts marshalling for every `Claims` value. `Jwt.SignThenParse`, `Authn.SessionTokenAccepted`, `Authn.ConsoleSessionCarriesTenant` and `AuthMiddleware.SignedTokenAdmitted` rest on that assumption. JSON's own number and string encoding is not modelled. The assumption is stronger than Go's `encoding/json` gives: a `[]string` audience held in an `any` field decodes back as `[]any`, so `AudStringList` would not survive the round trip; the signers only ever set a single-string audience or none (apps/server/internal/authn/biz/auth.go:240-241).
- UploadFile.ConsoleAgreesWithMiddleware compares the upload handler with the newer authentication middleware only, not with the older server middleware.
- ApiKeys.BlankScopesUnrestricted: an update whose scopes are all blank lifts the key's scope restriction. The model states this behaviour but does not treat it as a defect, since an empty scope list means "unrestricted" throughout the API-key code.
- Conversation.ByCreatedAt: the sort is stable, so messages with the same created_at keep the order written. The database may return such ties in any order.
- Conversation.ConversationUsecase.MaybePurge: the cutoff is now minus `retentionDays` × 86400 seconds, whereas `now.AddDate(0, 0, -days)` steps back calendar days in the server's local zone, so across a daylight-saving change the two cutoffs differ by the shift (usually an hour).
- Knowledge.KnowledgeUsecase.ProcessIngestion: the error_message stored on a failed version is `ErrorText(e)`, the error's reason (or name for a plain error), whereas knowledge.go:500 and :527 store `err.Error()`, which for a Kratos error is the whole "error: code = … reason = … message = …" string; the `Error` datatype carries no message, so the model does not promise the stored text beyond its reason.
- Knowledge.IngestEarlyExits: the failed version's error text is the reason only, as on the ProcessIngestion line.
- Knowledge.IngestIndexRefused: the failed version's error text is the reason only, as on the ProcessIngestion line.

## Findings

| source | as written | input that shows it | evidently intended | confidence | as-written member | corrected member |
|---|---|---|---|---|---|---|
| apps/dashboard/src/services/client.ts:31-35 | `...init` is spread after the merged `headers`, so a caller's `init.headers` replaces them and drops the bearer token and the default Content-Type (modelled by `FetchCallAsWritten`; the corrected `RequestCall` sends the merged headers) | token "t" and `init = {headers: {"X-API-Key": "k"}}`: the request carries no Authorization header | the merged headers (token, caller headers, default Content-Type) are what is sent | not executed | ApiClient.CallerHeadersDropToken | ApiClient.RequestCallCarriesToken |
| apps/server/internal/rag/biz/steps_rerank.go:193-201 | the named-id loop does not check `seen`, so an id the LLM lists twice is appended twice (modelled by `ApplyRerankOrderAsWritten`; the corrected `ApplyRerankOrder` skips ids already taken) | order ["a", "a"] over candidates a and b gives a, a, b: three candidates from two | reordering is a permutation of the candidates | not executed | Rerank.RepeatedIdDuplicates | Rerank.ApplyPermutes |
