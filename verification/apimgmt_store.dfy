/** The storage side of API-key management
    (apps/server/internal/apimgmt/data/apimgmt.go): how string lists are
    kept in a text column, how blank strings become SQL NULL, the Redis
    counters of the rate limiter, and key deletion. */
module ApiKeyStore {
  import opened Wrappers
  import opened Text
  import opened Contexts
  import opened Tenancy
  import opened ApiKeys

  // ---------------------------------------------------------------------
  // Column values

  /** nullString: a blank value is stored as NULL, any other value trimmed. */
  function NullString(value: string): (r: Option<string>)
    ensures r.None? <==> TrimSpace(value) == ""
    ensures r.Some? ==> r.value == TrimSpace(value)
  {
    if TrimSpace(value) == "" then None else Some(TrimSpace(value))
  }

  /** Storing a stored value again stores the same thing. */
  lemma NullStringStable(value: string)
    ensures NullString(value).Some? ==> NullString(NullString(value).value) == NullString(value)
  {
    TrimSpaceIdempotent(value);
  }

  /** `encoding/json` on a list of strings: `marshal` never fails on such a
      list, and `unmarshal` answers None when the text is not a JSON array
      of strings. */
  datatype ListCodec = ListCodec(marshal: seq<string> -> string, unmarshal: string -> Option<seq<string>>)

  /** What the model relies on: unmarshalling a marshalled list gives it
      back, and a marshalled list is non-empty text (`[...]`) without white
      space at its ends. */
  ghost predicate SoundCodec(c: ListCodec) {
    forall items :: c.unmarshal(c.marshal(items)) == Some(items) &&
      c.marshal(items) != "" && !IsSpace(c.marshal(items)[0]) && !IsSpace(c.marshal(items)[|c.marshal(items)| - 1])
  }

  /** encodeStringList: an empty list is the empty string, any other list
      its JSON text. */
  function EncodeStringList(c: ListCodec, items: seq<string>): (r: string)
    ensures |items| == 0 ==> r == ""
    ensures |items| > 0 ==> r == c.marshal(items)
  {
    if |items| == 0 then "" else c.marshal(items)
  }

  /** The comma-separated fallback: each part trimmed, blank parts dropped. */
  function Kept(parts: seq<string>): (r: seq<string>)
    ensures |r| <= |parts|
    ensures forall i :: 0 <= i < |r| ==> r[i] != ""
    decreases |parts|
  {
    if parts == [] then []
    else
      var prev := Kept(parts[..|parts| - 1]);
      var item := TrimSpace(parts[|parts| - 1]);
      if item != "" then prev + [item] else prev
  }

  /** decodeStringList on a column value (None is SQL NULL). */
  function DecodedList(c: ListCodec, raw: Option<string>): seq<string> {
    match raw
    case None => []
    case Some(text) =>
      var value := TrimSpace(text);
      if value == "" then []
      else
        match c.unmarshal(value)
        case Some(items) => if |items| > 0 then items else Kept(Split(value, ','))
        case None => Kept(Split(value, ','))
  }

  /** decodeStringList: NULL and blank text are no list; a non-empty JSON
      array is its items; anything else is split on commas by a loop that
      appends the trimmed, non-blank parts. */
  method DecodeStringList(c: ListCodec, raw: Option<string>) returns (out: seq<string>)
    ensures out == DecodedList(c, raw)
    ensures raw.None? || TrimSpace(raw.value) == "" ==> out == []
  {
    if raw.None? {
      return [];
    }
    var value := TrimSpace(raw.value);
    if value == "" {
      return [];
    }
    var decoded := c.unmarshal(value);
    if decoded.Some? && |decoded.value| > 0 {
      return decoded.value;
    }
    var parts := Split(value, ',');
    out := [];
    for i := 0 to |parts|
      invariant out == Kept(parts[..i])
    {
      assert parts[..i + 1][..i] == parts[..i];
      var item := TrimSpace(parts[i]);
      if item != "" {
        out := out + [item];
      }
    }
    assert parts[..|parts|] == parts;
  }

  /** A non-empty list survives a store and a load; an empty one loads as
      no list. */
  lemma EncodeDecodeRoundTrip(c: ListCodec, items: seq<string>)
    requires SoundCodec(c)
    ensures DecodedList(c, Some(EncodeStringList(c, items))) == items
  {
    if |items| > 0 {
      var m := c.marshal(items);
      assert c.unmarshal(m) == Some(items);
      TrimSpaceUntouched(m);
    }
  }

  /** Trimmed, non-blank parts are kept as they are. */
  lemma {:induction false} KeptOfTrimmed(parts: seq<string>)
    requires forall i :: 0 <= i < |parts| ==> parts[i] != "" && TrimSpace(parts[i]) == parts[i]
    ensures Kept(parts) == parts
    decreases |parts|
  {
    if parts != [] {
      KeptOfTrimmed(parts[..|parts| - 1]);
      assert parts == parts[..|parts| - 1] + [parts[|parts| - 1]];
    }
  }

  /** A join of non-empty parts starts with the first part's first
      character and ends with the last part's last character. */
  lemma {:induction false} JoinEnds(parts: seq<string>, sep: string)
    requires |parts| >= 1
    requires forall i :: 0 <= i < |parts| ==> parts[i] != ""
    ensures Join(parts, sep) != []
    ensures Join(parts, sep)[0] == parts[0][0]
    ensures Join(parts, sep)[|Join(parts, sep)| - 1] == parts[|parts| - 1][|parts[|parts| - 1]| - 1]
    decreases |parts|
  {
    if |parts| > 1 {
      JoinEnds(parts[1..], sep);
      var rest := Join(parts[1..], sep);
      assert Join(parts, sep) == parts[0] + sep + rest;
    }
  }

  /** Text written by hand as `a, b` (no JSON) loads as its trimmed items:
      a comma-joined list of trimmed, non-blank items without commas that
      is not JSON decodes to that list. */
  lemma CommaListDecodes(c: ListCodec, items: seq<string>)
    requires |items| >= 1
    requires forall i :: 0 <= i < |items| ==> items[i] != "" && TrimSpace(items[i]) == items[i] && ',' !in items[i]
    requires c.unmarshal(Join(items, ",")).None?
    ensures DecodedList(c, Some(Join(items, ","))) == items
  {
    var text := Join(items, ",");
    JoinEnds(items, ",");
    var first := items[0];
    var last := items[|items| - 1];
    TrimSpaceEnds(first);
    TrimSpaceEnds(last);
    TrimSpaceUntouched(text);
    SplitJoin(items, ',');
    KeptOfTrimmed(items);
  }

  // ---------------------------------------------------------------------
  // Rate limiter

  /** One counter check: the Redis key, its limit, the TTL (seconds) set on
      the key's first increment, and the reason of the 429 error. */
  datatype Limit = Limit(counter: string, limit: int, ttl: int, code: string)

  /** The limiter's view of Redis: counter values and the TTLs set. */
  datatype Counters = Counters(values: map<string, int>, ttls: map<string, int>)

  function Count(values: map<string, int>, key: string): int {
    if key in values then values[key] else 0
  }

  /** checkLimit against a reachable store: a limit of 0 or less neither
      counts nor refuses; otherwise the counter is incremented, its TTL is
      set when the new count is 1, and the call is refused with 429 exactly
      when the new count exceeds the limit. */
  function Hit(st: Counters, l: Limit): (r: (Outcome, Counters))
    ensures l.limit <= 0 ==> r == (Pass, st)
    ensures l.limit > 0 ==>
      var count := Count(st.values, l.counter) + 1;
      r.1.values == st.values[l.counter := count] &&
      (count == 1 ==> r.1.ttls == st.ttls[l.counter := l.ttl]) &&
      (count != 1 ==> r.1.ttls == st.ttls) &&
      (r.0.Failed? <==> count > l.limit) &&
      (r.0.Failed? ==> r.0.error == TooManyRequests(l.code))
  {
    if l.limit <= 0 then (Pass, st)
    else
      var count := Count(st.values, l.counter) + 1;
      var ttls := if count == 1 then st.ttls[l.counter := l.ttl] else st.ttls;
      (if count > l.limit then Failed(TooManyRequests(l.code)) else Pass, Counters(st.values[l.counter := count], ttls))
  }

  /** The checks of one request, in order, stopping at the first refusal. */
  function CheckAll(st: Counters, plan: seq<Limit>): (Outcome, Counters)
    decreases |plan|
  {
    if plan == [] then (Pass, st)
    else
      var (o, next) := Hit(st, plan[0]);
      if o.Failed? then (o, next) else CheckAll(next, plan[1..])
  }

  /** When only the first check has a positive limit, it alone decides. */
  lemma CheckAllSole(st: Counters, plan: seq<Limit>)
    requires |plan| == 4 && plan[1].limit <= 0 && plan[2].limit <= 0 && plan[3].limit <= 0
    ensures CheckAll(st, plan) == Hit(st, plan[0])
  {
    var next := Hit(st, plan[0]).1;
    if !Hit(st, plan[0]).0.Failed? {
      var p1, p2, p3 := plan[1..], plan[1..][1..], plan[1..][1..][1..];
      assert p1[0] == plan[1] && p2[0] == plan[2] && p3[0] == plan[3] && p3[1..] == [];
      assert CheckAll(st, plan) == CheckAll(next, p1);
      assert CheckAll(next, p1) == CheckAll(next, p2);
      assert CheckAll(next, p2) == CheckAll(next, p3);
      assert CheckAll(next, p3) == (Pass, next);
    }
  }

  const TwoSeconds := 2
  const TwoDays := 48 * 60 * 60

  /** The four checks of Check in their fixed order: key QPS, tenant QPS,
      key daily quota, tenant daily quota. A tenant check with no tenant
      gets limit 0, which skips it. `window` is the time formatted to the
      second and `day` to the day. */
  function Plan(key: ApiKey, tenantQps: int, tenantQuota: int, window: string, day: string): (p: seq<Limit>)
    ensures |p| == 4
    ensures p[0].code == "API_QPS_LIMIT" && p[1].code == "API_TENANT_QPS_LIMIT"
    ensures p[2].code == "API_QUOTA_LIMIT" && p[3].code == "API_TENANT_QUOTA_LIMIT"
    ensures key.tenantId == "" ==> p[1].limit == 0 && p[3].limit == 0
  {
    var tenant := key.tenantId != "";
    [Limit("ragdesk:qps:key:" + key.id + ":" + window, key.qpsLimit, TwoSeconds, "API_QPS_LIMIT"),
     Limit("ragdesk:qps:tenant:" + key.tenantId + ":" + window, if tenant then tenantQps else 0, TwoSeconds, "API_TENANT_QPS_LIMIT"),
     Limit("ragdesk:quota:key:" + key.id + ":" + day, key.quotaDaily, TwoDays, "API_QUOTA_LIMIT"),
     Limit("ragdesk:quota:tenant:" + key.tenantId + ":" + day, if tenant then tenantQuota else 0, TwoDays, "API_TENANT_QUOTA_LIMIT")]
  }

  /** A refusal is a 429 carrying the reason of one of the checks whose
      limit is positive. */
  lemma {:induction false} CheckAllRefusal(st: Counters, plan: seq<Limit>)
    ensures CheckAll(st, plan).0.Failed? ==>
      exists i :: 0 <= i < |plan| && plan[i].limit > 0 && CheckAll(st, plan).0.error == TooManyRequests(plan[i].code)
    decreases |plan|
  {
    if plan != [] {
      var (o, next) := Hit(st, plan[0]);
      if !o.Failed? {
        CheckAllRefusal(next, plan[1..]);
        if CheckAll(st, plan).0.Failed? {
          var i :| 0 <= i < |plan[1..]| && plan[1..][i].limit > 0 && CheckAll(next, plan[1..]).0.error == TooManyRequests(plan[1..][i].code);
          assert plan[i + 1] == plan[1..][i];
        }
      }
    }
  }

  /** Counters only grow: a check never lowers or removes a counter. */
  lemma {:induction false} CheckAllMonotone(st: Counters, plan: seq<Limit>)
    ensures forall k :: k in st.values ==> k in CheckAll(st, plan).1.values && CheckAll(st, plan).1.values[k] >= st.values[k]
    decreases |plan|
  {
    if plan != [] {
      var (o, next) := Hit(st, plan[0]);
      if !o.Failed? {
        CheckAllMonotone(next, plan[1..]);
      }
    }
  }

  /** A limiter connected to Redis. `reachable` is false while increments
      fail, which makes every check pass without counting. */
  class RateLimiter {
    var values: map<string, int>
    var ttls: map<string, int>
    var reachable: bool
    const tenantQpsLimit: int
    const tenantQuotaDaily: int

    function State(): Counters
      reads this
    {
      Counters(values, ttls)
    }

    /** NewRateLimiter after a successful ping: tenant limits that are not
        positive are turned off (0). */
    constructor (tenantQps: int, tenantQuota: int)
      ensures tenantQpsLimit == (if tenantQps > 0 then tenantQps else 0)
      ensures tenantQuotaDaily == (if tenantQuota > 0 then tenantQuota else 0)
      ensures values == map[] && ttls == map[] && reachable
    {
      tenantQpsLimit := if tenantQps > 0 then tenantQps else 0;
      tenantQuotaDaily := if tenantQuota > 0 then tenantQuota else 0;
      values := map[];
      ttls := map[];
      reachable := true;
    }

    /** checkLimit. */
    method CheckLimit(l: Limit) returns (out: Outcome)
      modifies this`values, this`ttls
      ensures reachable == old(reachable)
      ensures !reachable ==> out == Pass && values == old(values) && ttls == old(ttls)
      ensures reachable ==> (out, State()) == Hit(old(State()), l)
    {
      if l.limit <= 0 {
        return Pass;
      }
      if !reachable {
        return Pass;
      }
      var count := Count(values, l.counter) + 1;
      values := values[l.counter := count];
      if count == 1 {
        ttls := ttls[l.counter := l.ttl];
      }
      if count > l.limit {
        return Failed(TooManyRequests(l.code));
      }
      return Pass;
    }

    /** One guarded checkLimit call of Check: the guard is the limit being
        positive. A refusal settles the whole plan; a pass leaves the rest
        of the plan to decide. */
    method Stage(l: Limit, guard: bool, ghost rest: seq<Limit>) returns (out: Outcome)
      requires guard <==> l.limit > 0
      modifies this`values, this`ttls
      ensures !reachable ==> out == Pass && values == old(values) && ttls == old(ttls)
      ensures reachable && out.Failed? ==> (out, State()) == CheckAll(old(State()), [l] + rest)
      ensures reachable && !out.Failed? ==> CheckAll(State(), rest) == CheckAll(old(State()), [l] + rest)
    {
      ghost var plan := [l] + rest;
      assert plan[0] == l && plan[1..] == rest;
      if !guard {
        return Pass;
      }
      out := CheckLimit(l);
    }

    /** Check: the four checks in order, returning the first refusal. */
    method Check(key: ApiKey, window: string, day: string) returns (out: Outcome)
      modifies this`values, this`ttls
      ensures reachable == old(reachable)
      ensures !reachable ==> out == Pass && values == old(values) && ttls == old(ttls)
      ensures reachable ==>
        (out, State()) == CheckAll(old(State()), Plan(key, tenantQpsLimit, tenantQuotaDaily, window, day))
    {
      var plan := Plan(key, tenantQpsLimit, tenantQuotaDaily, window, day);
      assert plan == [plan[0]] + plan[1..] && plan[1..] == [plan[1]] + plan[2..];
      assert plan[2..] == [plan[2]] + plan[3..] && plan[3..] == [plan[3]] + [];
      out := Stage(plan[0], key.qpsLimit > 0, plan[1..]);
      if out.Failed? {
        return;
      }
      out := Stage(plan[1], tenantQpsLimit > 0 && key.tenantId != "", plan[2..]);
      if out.Failed? {
        return;
      }
      out := Stage(plan[2], key.quotaDaily > 0, plan[3..]);
      if out.Failed? {
        return;
      }
      out := Stage(plan[3], tenantQuotaDaily > 0 && key.tenantId != "", []);
      if out.Failed? {
        return;
      }
      out := Pass;
    }
  }

  /** NewRateLimiter: no limiter without a Redis address or when the ping
      fails; otherwise a connected limiter with its tenant limits clamped. */
  method NewRateLimiter(addr: string, pingOk: bool, tenantQps: int, tenantQuota: int) returns (l: RateLimiter?)
    ensures l == null <==> addr == "" || !pingOk
    ensures l != null ==>
      (fresh(l) && l.reachable && l.values == map[] && l.ttls == map[] &&
       l.tenantQpsLimit == (if tenantQps > 0 then tenantQps else 0) &&
       l.tenantQuotaDaily == (if tenantQuota > 0 then tenantQuota else 0))
  {
    if addr == "" || !pingOk {
      return null;
    }
    l := new RateLimiter(tenantQps, tenantQuota);
  }

  /** AuthorizeAPIKey's use of the limiter: a nil limiter (no Redis
      address, or a failed ping) allows every request. */
  method CheckIfConfigured(l: RateLimiter?, key: ApiKey, window: string, day: string) returns (out: Outcome)
    modifies l
    ensures l == null ==> out == Pass
    ensures l != null && l.reachable ==>
      (out, l.State()) == CheckAll(old(l.State()), Plan(key, l.tenantQpsLimit, l.tenantQuotaDaily, window, day))
  {
    if l == null {
      return Pass;
    }
    out := l.Check(key, window, day);
  }

  /** With a per-key QPS limit of `qps`, the first `qps` requests of one
      second pass and the next one is refused with API_QPS_LIMIT. */
  method QpsLimitEnforced(key: ApiKey, window: string, day: string) returns (passed: nat, last: Outcome)
    requires key.qpsLimit > 0 && key.quotaDaily <= 0 && key.tenantId == ""
    ensures passed == key.qpsLimit
    ensures last == Failed(TooManyRequests("API_QPS_LIMIT"))
  {
    var l := new RateLimiter(0, 0);
    var counter := "ragdesk:qps:key:" + key.id + ":" + window;
    passed := 0;
    while passed < key.qpsLimit
      invariant passed <= key.qpsLimit
      invariant l.reachable && l.tenantQpsLimit == 0 && l.tenantQuotaDaily == 0
      invariant Count(l.values, counter) == passed
      decreases key.qpsLimit - passed
    {
      CheckAllSole(l.State(), Plan(key, 0, 0, window, day));
      var out := l.Check(key, window, day);
      assert out == Pass;
      passed := passed + 1;
    }
    CheckAllSole(l.State(), Plan(key, 0, 0, window, day));
    last := l.Check(key, window, day);
  }

  // ---------------------------------------------------------------------
  // Keys of a tenant

  const KeyNotFound := NotFound("API_KEY_NOT_FOUND")

  /** The api_key table, keyed by (tenant id, key id). */
  class ApiKeyTable {
    var rows: map<(string, string), ApiKey>

    constructor (initial: map<(string, string), ApiKey>)
      ensures rows == initial
    {
      rows := initial;
    }

    /** DeleteAPIKey of the repository: the tenant comes from the context,
        and deleting no row is NotFound. */
    method DeleteAPIKey(ctx: Context, keyId: string) returns (out: Outcome)
      modifies this
      ensures RequireTenantID(ctx).Fail? ==> out == Failed(TenantMissing) && rows == old(rows)
      ensures RequireTenantID(ctx).Ok? && (RequireTenantID(ctx).value, keyId) !in old(rows) ==>
                out == Failed(KeyNotFound) && rows == old(rows)
      ensures RequireTenantID(ctx).Ok? && (RequireTenantID(ctx).value, keyId) in old(rows) ==>
                out == Pass && rows == old(rows) - {(RequireTenantID(ctx).value, keyId)}
    {
      var tenant := RequireTenantID(ctx);
      if tenant.Fail? {
        return Failed(tenant.error);
      }
      var row := (tenant.value, keyId);
      if row !in rows {
        return Failed(KeyNotFound);
      }
      rows := rows - {row};
      out := Pass;
    }
  }

  /** DeleteAPIKey of the use case: the id is trimmed and required before
      the repository is asked. */
  method DeleteKey(table: ApiKeyTable, ctx: Context, keyId: string) returns (out: Outcome)
    modifies table
    ensures TrimSpace(keyId) == "" ==> out == Failed(KeyIdMissing) && table.rows == old(table.rows)
    ensures TrimSpace(keyId) != "" && RequireTenantID(ctx).Fail? ==> out == Failed(TenantMissing) && table.rows == old(table.rows)
    ensures TrimSpace(keyId) != "" && RequireTenantID(ctx).Ok? ==>
      var row := (RequireTenantID(ctx).value, TrimSpace(keyId));
      (row in old(table.rows) ==> out == Pass && table.rows == old(table.rows) - {row}) &&
      (row !in old(table.rows) ==> out == Failed(KeyNotFound) && table.rows == old(table.rows))
  {
    var id := TrimSpace(keyId);
    if id == "" {
      return Failed(KeyIdMissing);
    }
    out := table.DeleteAPIKey(ctx, id);
  }

  /** Deleting the same key twice: the second delete finds no row. */
  method DeleteTwice(ctx: Context, keyId: string, k: ApiKey) returns (first: Outcome, second: Outcome)
    requires TrimSpace(keyId) != "" && RequireTenantID(ctx).Ok?
    ensures first == Pass && second == Failed(KeyNotFound)
  {
    var table := new ApiKeyTable(map[(RequireTenantID(ctx).value, TrimSpace(keyId)) := k]);
    first := DeleteKey(table, ctx, keyId);
    second := DeleteKey(table, ctx, keyId);
  }
}
