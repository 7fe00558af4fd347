/** The analytics repository (apps/server/internal/analytics/data/analytics.go)
    over an in-memory event table: filter clauses, percentile selection,
    daily bucketing, the overview figures and the column helpers. SQL
    aggregation is stated as functions over the stored rows. */
module AnalyticsStore {
  import opened Wrappers
  import opened Text
  import opened Contexts
  import opened Tenancy
  import opened Analytics
  import ApiKeyStore

  const SecondsPerDay := 24 * 60 * 60
  /** The bot column value for statistics over all bots. */
  const AllBots := "all"
  const TenantMismatch := Forbidden("TENANT_MISMATCH")
  /** sql.ErrConnDone, returned when there is no database. */
  const ConnDone := Plain("sql: connection is already closed")

  // ---------------------------------------------------------------- columns

  /** nullInt32: zero is stored as NULL. */
  function NullInt32(value: int): (r: Option<int>)
    ensures r.None? <==> value == 0
    ensures r.GetOr(0) == value
  {
    if value == 0 then None else Some(value)
  }

  function BoolToInt(value: bool): (r: int)
    ensures r == 0 || r == 1
    ensures r == 1 <==> value
  {
    if value then 1 else 0
  }

  /** A stored analytics_event row. */
  datatype EventRow = EventRow(
    id: string, tenantId: string, botId: string, eventType: string, sessionId: Option<string>,
    messageId: Option<string>, query: Option<string>, hit: int, confidence: real, latencyMs: int,
    statusCode: int, rating: Option<int>, createdAt: int)

  /** The row CreateEvent inserts for an event whose tenant is settled. */
  function RowOf(e: Event): (r: EventRow)
    ensures r.hit == 1 <==> e.hit
    ensures r.rating.GetOr(0) == e.rating
    ensures r.botId == TrimSpace(e.botId) && r.eventType == TrimSpace(e.eventType)
    ensures r.sessionId == ApiKeyStore.NullString(e.sessionId) && r.messageId == ApiKeyStore.NullString(e.messageId)
    ensures r.query == ApiKeyStore.NullString(e.query)
    ensures (r.id, r.tenantId, r.confidence, r.latencyMs, r.statusCode, r.createdAt) ==
            (e.id, e.tenantId, e.confidence, e.latencyMs, e.statusCode, e.createdAt)
  {
    EventRow(e.id, e.tenantId, TrimSpace(e.botId), TrimSpace(e.eventType), ApiKeyStore.NullString(e.sessionId),
             ApiKeyStore.NullString(e.messageId), ApiKeyStore.NullString(e.query), BoolToInt(e.hit), e.confidence,
             e.latencyMs, e.statusCode, NullInt32(e.rating), e.createdAt)
  }

  // ---------------------------------------------------------------- filters

  datatype Arg = StrArg(s: string) | TimeArg(t: int) | IntArg(n: int)

  /** The number of `?` placeholders in a query. */
  function Marks(q: string): nat
  {
    if q == [] then 0 else Marks(q[..|q| - 1]) + (if q[|q| - 1] == '?' then 1 else 0)
  }

  lemma {:induction false} MarksAppend(a: string, b: string)
    ensures Marks(a + b) == Marks(a) + Marks(b)
    decreases |b|
  {
    if b == [] {
      assert a + b == a;
    } else {
      assert (a + b)[..|a + b| - 1] == a + b[..|b| - 1];
      MarksAppend(a, b[..|b| - 1]);
    }
  }

  lemma {:induction false} MarksFree(q: string)
    requires '?' !in q
    ensures Marks(q) == 0
    decreases |q|
  {
    if q != [] {
      assert q[..|q| - 1][..] <= q[..];
      MarksFree(q[..|q| - 1]);
    }
  }

  /** Appends ` AND <clause>?` with its argument. */
  function AddClause(query: string, args: seq<Arg>, clause: string, arg: Arg): (r: (string, seq<Arg>))
    requires '?' !in clause
    ensures Marks(r.0) == Marks(query) + 1
    ensures r.1 == args + [arg]
  {
    MarksFree(clause);
    MarksAppend(clause, "?");
    MarksAppend(query, clause + "?");
    (query + (clause + "?"), args + [arg])
  }

  /** applyEventFilters: one clause, with one argument, for each of a
      non-blank bot, a set start and a set end. */
  function ApplyEventFilters(query: string, args: seq<Arg>, f: Filter): (r: (string, seq<Arg>))
    ensures Marks(r.0) - Marks(query) == |r.1| - |args|
    ensures |r.1| - |args| == (if TrimSpace(f.botId) != "" then 1 else 0) + (if f.start != 0 then 1 else 0) + (if f.end != 0 then 1 else 0)
    ensures r.1[..|args|] == args
  {
    var (q1, a1) := if TrimSpace(f.botId) != "" then AddClause(query, args, " AND bot_id = ", StrArg(TrimSpace(f.botId))) else (query, args);
    var (q2, a2) := if f.start != 0 then AddClause(q1, a1, " AND created_at >= ", TimeArg(f.start)) else (q1, a1);
    var (q3, a3) := if f.end != 0 then AddClause(q2, a2, " AND created_at <= ", TimeArg(f.end)) else (q2, a2);
    assert a3[..|args|] == args;
    (q3, a3)
  }

  /** The rows the filtered query selects: the tenant's `rag_query`
      events, narrowed by bot and by the inclusive time range when set. */
  predicate Selected(row: EventRow, tenantId: string, f: Filter) {
    row.tenantId == tenantId && row.eventType == EventRAGQuery &&
    (TrimSpace(f.botId) != "" ==> row.botId == TrimSpace(f.botId)) &&
    (f.start != 0 ==> row.createdAt >= f.start) &&
    (f.end != 0 ==> row.createdAt <= f.end)
  }

  function SelectRows(rows: seq<EventRow>, tenantId: string, f: Filter): (r: seq<EventRow>)
    ensures |r| <= |rows|
    ensures forall i :: 0 <= i < |r| ==> Selected(r[i], tenantId, f)
    decreases |rows|
  {
    if rows == [] then []
    else
      var prev := SelectRows(rows[..|rows| - 1], tenantId, f);
      if Selected(rows[|rows| - 1], tenantId, f) then prev + [rows[|rows| - 1]] else prev
  }

  // ---------------------------------------------------------------- percentile

  predicate SortedInts(s: seq<int>) {
    forall i, j :: 0 <= i < j < |s| ==> s[i] <= s[j]
  }

  /** The smallest integer not below `x`. */
  function Ceil(x: real): (r: int)
    ensures r as real >= x && (r - 1) as real < x
  {
    if x.Floor as real == x then x.Floor else x.Floor + 1
  }

  /** The position computePercentile reads: ceil(n*p)-1 kept inside the
      list. */
  function PercentileIndex(n: nat, p: real): (k: int)
    requires n > 0
    ensures 0 <= k < n
    ensures p <= 0.0 ==> k == 0
    ensures p >= 1.0 ==> k == n - 1
  {
    if p <= 0.0 then 0
    else if p >= 1.0 then n - 1
    else
      var index := Ceil(n as real * p) - 1;
      if index < 0 then 0 else if index >= n then n - 1 else index
  }

  /** sort.Ints: ascending, in place. */
  method SortInts(a: array<int>)
    modifies a
    ensures SortedInts(a[..])
    ensures multiset(a[..]) == multiset(old(a[..]))
  {
    if a.Length == 0 {
      return;
    }
    var i := 1;
    while i < a.Length
      invariant 1 <= i <= a.Length
      invariant SortedInts(a[..i])
      invariant multiset(a[..]) == multiset(old(a[..]))
    {
      InsertAt(a, i);
      i := i + 1;
    }
  }

  /** Insertion of s[j] into s[..i+1] under way: apart from position j
      the prefix is sorted, s[j] is no larger than what follows it, and
      its neighbours are in order. */
  predicate Inserting(s: seq<int>, i: int, j: int) {
    0 <= j <= i < |s| &&
    (forall k, l :: 0 <= k < l <= i && k != j && l != j ==> s[k] <= s[l]) &&
    (forall l :: j < l <= i ==> s[j] <= s[l]) &&
    (0 < j < i ==> s[j - 1] <= s[j + 1])
  }

  /** Before any swap: a sorted prefix and the element after it. */
  lemma InsertingStart(s: seq<int>, i: int)
    requires 0 < i < |s| && SortedInts(s[..i])
    ensures Inserting(s, i, i)
  {
    assert forall k :: 0 <= k < i ==> s[..i][k] == s[k];
  }

  /** Swapping an out-of-order s[j] with its left neighbour moves the
      insertion one step left. */
  lemma InsertingStep(s: seq<int>, i: int, j: int)
    requires Inserting(s, i, j) && j > 0 && s[j - 1] > s[j]
    ensures Inserting(s[j - 1 := s[j]][j := s[j - 1]], i, j - 1)
  {
  }

  /** Once s[j] is not below its left neighbour the prefix is sorted. */
  lemma InsertingDone(s: seq<int>, i: int, j: int)
    requires Inserting(s, i, j) && (j == 0 || s[j - 1] <= s[j])
    ensures SortedInts(s[..i + 1])
  {
  }

  /** Moves a[i] left until a[..i+1] is sorted. */
  method InsertAt(a: array<int>, i: int)
    requires 0 < i < a.Length && SortedInts(a[..i])
    modifies a
    ensures SortedInts(a[..i + 1])
    ensures multiset(a[..]) == multiset(old(a[..]))
  {
    var j := i;
    InsertingStart(a[..], i);
    while j > 0 && a[j - 1] > a[j]
      invariant Inserting(a[..], i, j)
      invariant multiset(a[..]) == multiset(old(a[..]))
    {
      ghost var s := a[..];
      InsertingStep(s, i, j);
      a[j - 1], a[j] := a[j], a[j - 1];
      assert a[..] == s[j - 1 := s[j]][j := s[j - 1]];
      j := j - 1;
    }
    InsertingDone(a[..], i, j);
  }

  /** computePercentile: sorts the list in place and reads the element at
      PercentileIndex; an empty list gives 0. */
  method ComputePercentile(values: array<int>, p: real) returns (r: real)
    modifies values
    ensures SortedInts(values[..])
    ensures multiset(values[..]) == multiset(old(values[..]))
    ensures values.Length == 0 ==> r == 0.0
    ensures values.Length > 0 ==> r == values[PercentileIndex(values.Length, p)] as real
  {
    if values.Length == 0 {
      return 0.0;
    }
    SortInts(values);
    r := values[PercentileIndex(values.Length, p)] as real;
  }

  /** What the sorted read means: the percentile is a value of the list,
      the minimum for p <= 0 and the maximum for p >= 1. */
  lemma PercentileOfSorted(sorted: seq<int>, original: seq<int>, p: real)
    requires SortedInts(sorted) && multiset(sorted) == multiset(original) && |sorted| > 0
    ensures sorted[PercentileIndex(|sorted|, p)] in original
    ensures p <= 0.0 ==> forall x :: x in original ==> sorted[PercentileIndex(|sorted|, p)] <= x
    ensures p >= 1.0 ==> forall x :: x in original ==> x <= sorted[PercentileIndex(|sorted|, p)]
  {
    var k := PercentileIndex(|sorted|, p);
    assert sorted[k] in multiset(sorted);
    forall x | x in original
      ensures sorted[0] <= x <= sorted[|sorted| - 1]
    {
      assert x in multiset(original);
      assert x in multiset(sorted);
      var m :| 0 <= m < |sorted| && sorted[m] == x;
    }
  }

  /** The overview's p95 row offset, ceil(total*0.95)-1 floored at 0. */
  function P95Offset(total: nat): (o: int)
    ensures o >= 0
  {
    var offset := Ceil(total as real * 0.95) - 1;
    if offset < 0 then 0 else offset
  }

  /** GetOverview's p95 offset and computePercentile at 0.95 read the
      same position, so the overview and the daily series agree. */
  lemma P95OffsetIsPercentile(total: nat)
    requires total > 0
    ensures P95Offset(total) == PercentileIndex(total, 0.95)
  {
    var x := total as real * 0.95;
    assert x <= total as real;
    assert Ceil(x) <= total;
  }

  /** `v` is the value at PercentileIndex of the sorted `values`. */
  ghost predicate IsPercentile(v: real, values: seq<int>, p: real) {
    |values| > 0 &&
    exists s: seq<int> :: SortedInts(s) && multiset(s) == multiset(values) && |s| == |values| &&
      v == s[PercentileIndex(|s|, p)] as real
  }

  // ---------------------------------------------------------------- daily buckets

  /** The day a creation time falls on (DATE(created_at), in UTC). */
  function DayOf(t: int): int { t / SecondsPerDay }

  /** A day's running totals while RefreshDaily reads rows. */
  datatype Agg = Agg(total: nat, hitCount: nat, latencySum: int, latencies: seq<int>)

  const EmptyAgg := Agg(0, 0, 0, [])

  function AddRow(b: Agg, row: EventRow): Agg {
    Agg(b.total + 1, b.hitCount + (if row.hit > 0 then 1 else 0), b.latencySum + row.latencyMs, b.latencies + [row.latencyMs])
  }

  /** The buckets after reading `rows` in order. */
  function Aggregate(rows: seq<EventRow>): map<int, Agg>
    decreases |rows|
  {
    if rows == [] then map[]
    else
      var m := Aggregate(rows[..|rows| - 1]);
      var row := rows[|rows| - 1];
      var d := DayOf(row.createdAt);
      m[d := AddRow(if d in m then m[d] else EmptyAgg, row)]
  }

  /** The rows of one day, in order. */
  function RowsOn(rows: seq<EventRow>, day: int): seq<EventRow>
    decreases |rows|
  {
    if rows == [] then []
    else
      var prev := RowsOn(rows[..|rows| - 1], day);
      if DayOf(rows[|rows| - 1].createdAt) == day then prev + [rows[|rows| - 1]] else prev
  }

  function HitCount(rows: seq<EventRow>): nat
    decreases |rows|
  {
    if rows == [] then 0 else HitCount(rows[..|rows| - 1]) + (if rows[|rows| - 1].hit > 0 then 1 else 0)
  }

  function LatencySum(rows: seq<EventRow>): int
    decreases |rows|
  {
    if rows == [] then 0 else LatencySum(rows[..|rows| - 1]) + rows[|rows| - 1].latencyMs
  }

  function Latencies(rows: seq<EventRow>): (r: seq<int>)
    ensures |r| == |rows|
    ensures forall i :: 0 <= i < |rows| ==> r[i] == rows[i].latencyMs
    decreases |rows|
  {
    if rows == [] then [] else Latencies(rows[..|rows| - 1]) + [rows[|rows| - 1].latencyMs]
  }

  /** A day's figures computed directly from its rows. */
  function Summary(rows: seq<EventRow>): Agg {
    Agg(|rows|, HitCount(rows), LatencySum(rows), Latencies(rows))
  }

  /** Bucketing is per-day summarizing: a day has a bucket iff some row
      falls on it, and its bucket holds that day's count, hits, latency
      sum and latencies. */
  lemma {:induction false} AggregateIsSummary(rows: seq<EventRow>, day: int)
    ensures day in Aggregate(rows) <==> RowsOn(rows, day) != []
    ensures day in Aggregate(rows) ==> Aggregate(rows)[day] == Summary(RowsOn(rows, day))
    decreases |rows|
  {
    if rows != [] {
      var init := rows[..|rows| - 1];
      var row := rows[|rows| - 1];
      AggregateIsSummary(init, day);
      var on := RowsOn(init, day);
      if DayOf(row.createdAt) == day {
        var both := on + [row];
        assert both[..|both| - 1] == on;
        assert HitCount(both) == HitCount(on) + (if row.hit > 0 then 1 else 0);
        assert LatencySum(both) == LatencySum(on) + row.latencyMs;
        assert Latencies(both) == Latencies(on) + [row.latencyMs];
        assert RowsOn(rows, day) == both;
        assert Summary(both) == AddRow(Summary(on), row);
      }
    }
  }

  /** RefreshDaily's read loop; `days` lists the bucket keys in the order
      they were first seen. */
  method BucketRows(rows: seq<EventRow>) returns (buckets: map<int, Agg>, days: seq<int>)
    ensures buckets == Aggregate(rows)
    ensures forall d :: d in days <==> d in buckets
    ensures forall d :: d in buckets ==> |buckets[d].latencies| > 0
  {
    buckets := map[];
    days := [];
    var i := 0;
    while i < |rows|
      invariant 0 <= i <= |rows|
      invariant buckets == Aggregate(rows[..i])
      invariant forall d :: d in days <==> d in buckets
      invariant forall d :: d in buckets ==> |buckets[d].latencies| > 0
    {
      assert rows[..i + 1][..i] == rows[..i];
      var row := rows[i];
      var day := DayOf(row.createdAt);
      var bucket := if day in buckets then buckets[day] else EmptyAgg;
      if day !in buckets {
        days := days + [day];
      }
      buckets := buckets[day := AddRow(bucket, row)];
      i := i + 1;
    }
    assert rows[..|rows|] == rows;
  }

  /** An analytics_daily row. */
  datatype DailyStat = DailyStat(day: int, total: nat, hitCount: nat, hitRate: real, avgLatencyMs: real, p95LatencyMs: real)

  /** The daily row written for one bucket. */
  function DailyOf(day: int, b: Agg, p95: real): (r: DailyStat)
    ensures r.total == b.total && r.hitCount == b.hitCount && r.p95LatencyMs == p95
    ensures b.total > 0 ==> r.hitRate == b.hitCount as real / b.total as real && r.avgLatencyMs == b.latencySum as real / b.total as real
    ensures b.total == 0 ==> r.hitRate == 0.0 && r.avgLatencyMs == 0.0
  {
    if b.total > 0 then DailyStat(day, b.total, b.hitCount, b.hitCount as real / b.total as real, b.latencySum as real / b.total as real, p95)
    else DailyStat(day, b.total, b.hitCount, 0.0, 0.0, p95)
  }

  /** upsertDaily's bot column: blank means all bots. */
  function BotKey(botId: string): (r: string)
    ensures TrimSpace(botId) == "" ==> r == AllBots
    ensures TrimSpace(botId) != "" ==> r == botId
  {
    if TrimSpace(botId) == "" then AllBots else botId
  }

  // ---------------------------------------------------------------- overview

  datatype Overview = Overview(total: nat, hitCount: nat, hitRate: real, avgLatencyMs: real, p95LatencyMs: real, errorCount: nat, errorRate: real)

  function CountWhere(rows: seq<EventRow>, p: EventRow -> bool): (n: nat)
    ensures n <= |rows|
    decreases |rows|
  {
    if rows == [] then 0 else CountWhere(rows[..|rows| - 1], p) + (if p(rows[|rows| - 1]) then 1 else 0)
  }

  /** The overview figures of the selected rows, all but the p95. */
  function OverviewOf(rows: seq<EventRow>, p95: real): (o: Overview)
    ensures o.total == |rows| && o.p95LatencyMs == p95
    ensures o.hitCount <= o.total && o.errorCount <= o.total
    ensures o.total > 0 ==> o.hitRate == o.hitCount as real / o.total as real && o.errorRate == o.errorCount as real / o.total as real
    ensures o.total == 0 ==> o.hitRate == 0.0 && o.errorRate == 0.0 && o.avgLatencyMs == 0.0
  {
    var total := |rows|;
    var hits := CountWhere(rows, (row: EventRow) => row.hit == 1);
    var errors := CountWhere(rows, (row: EventRow) => row.statusCode >= 400);
    if total > 0 then
      Overview(total, hits, hits as real / total as real, LatencySum(rows) as real / total as real, p95, errors, errors as real / total as real)
    else Overview(0, hits, 0.0, 0.0, p95, errors, 0.0)
  }

  // ---------------------------------------------------------------- repository

  class AnalyticsRepo {
    /** Whether a database handle is configured. */
    const connected: bool
    var events: seq<EventRow>
    /** analytics_daily keyed by tenant, bot column and day. */
    var daily: map<(string, string, int), DailyStat>

    /** Stored rows carry a 0/1 hit flag. */
    ghost predicate Valid()
      reads this
    {
      forall i :: 0 <= i < |events| ==> events[i].hit == 0 || events[i].hit == 1
    }

    constructor (connected: bool)
      ensures this.connected == connected && events == [] && daily == map[] && Valid()
    {
      this.connected := connected;
      events := [];
      daily := map[];
    }

    /** The row CreateEvent would insert, or its error: no database, no
        tenant, or an event naming another tenant. */
    function Insertable(ctx: Context, e: Event, freshId: string, now: int): (r: Result<EventRow>)
      ensures !connected ==> r == Fail(ConnDone)
      ensures connected && RequireTenantID(ctx).Fail? ==> r == Fail(TenantMissing)
      ensures r.Ok? ==> RequireTenantID(ctx).Ok? && r.value.tenantId == RequireTenantID(ctx).value
      ensures r.Ok? ==> (r.value.id != "" || (e.id == "" && freshId == "")) && (r.value.createdAt != 0 || now == 0)
      ensures connected && RequireTenantID(ctx).Ok? ==>
        (e.tenantId != "" && e.tenantId != RequireTenantID(ctx).value <==> r == Fail(TenantMismatch))
    {
      if !connected then Fail(ConnDone)
      else
        var tenantId :- RequireTenantID(ctx);
        var owner := if e.tenantId == "" then tenantId else e.tenantId;
        if owner != tenantId then Fail(TenantMismatch)
        else Ok(RowOf(e.(tenantId := owner, id := if e.id == "" then freshId else e.id,
                         createdAt := if e.createdAt == 0 then now else e.createdAt)))
    }

    /** CreateEvent: inserts the row Insertable describes. */
    method CreateEvent(ctx: Context, e: Event, freshId: string, now: int) returns (out: Outcome)
      requires Valid()
      modifies this
      ensures Valid() && daily == old(daily)
      ensures Insertable(ctx, e, freshId, now).Fail? ==> out == Failed(Insertable(ctx, e, freshId, now).error) && events == old(events)
      ensures Insertable(ctx, e, freshId, now).Ok? ==> out == Pass && events == old(events) + [Insertable(ctx, e, freshId, now).value]
    {
      var row := Insertable(ctx, e, freshId, now);
      if row.Fail? {
        return Failed(row.error);
      }
      events := events + [row.value];
      out := Pass;
    }

    /** GetOverview over the tenant's selected `rag_query` rows; the p95 is
        read from the sorted latencies at P95Offset. */
    method GetOverview(ctx: Context, f: Filter) returns (r: Result<Overview>)
      requires connected
      ensures RequireTenantID(ctx).Fail? ==> r == Fail(TenantMissing)
      ensures RequireTenantID(ctx).Ok? ==>
        var rows := SelectRows(events, RequireTenantID(ctx).value, f);
        r.Ok? && r.value == OverviewOf(rows, r.value.p95LatencyMs) &&
        (|rows| == 0 ==> r.value.p95LatencyMs == 0.0) &&
        (|rows| > 0 ==> IsPercentile(r.value.p95LatencyMs, Latencies(rows), 0.95))
    {
      var tenant := RequireTenantID(ctx);
      if tenant.Fail? {
        return Fail(tenant.error);
      }
      var rows := SelectRows(events, tenant.value, f);
      var p95 := 0.0;
      if |rows| > 0 {
        var offset := P95Offset(|rows|);
        var latencies := Latencies(rows);
        var sorted := new int[|rows|](i requires 0 <= i < |rows| => latencies[i]);
        assert sorted[..] == latencies;
        SortInts(sorted);
        P95OffsetIsPercentile(|rows|);
        if offset < sorted.Length {
          p95 := sorted[offset] as real;
        }
        assert IsPercentile(p95, latencies, 0.95) by {
          assert SortedInts(sorted[..]) && multiset(sorted[..]) == multiset(latencies);
        }
      }
      r := Ok(OverviewOf(rows, p95));
    }

    /** The daily row for one bucket holds its summary and its p95. */
    ghost predicate DailyMatches(key: (string, string, int), b: Agg)
      reads this
    {
      key in daily && daily[key].(p95LatencyMs := 0.0) == DailyOf(key.2, b, 0.0) &&
      IsPercentile(daily[key].p95LatencyMs, b.latencies, 0.95)
    }

    /** RefreshDaily: buckets the selected rows by day and upserts one
        daily row per bucket under the tenant and bot column; other daily
        rows are left alone. */
    method RefreshDaily(ctx: Context, f: Filter) returns (out: Outcome)
      requires connected
      modifies this
      ensures events == old(events)
      ensures RequireTenantID(ctx).Fail? ==> out == Failed(TenantMissing) && daily == old(daily)
      ensures RequireTenantID(ctx).Ok? ==>
        var tenant := RequireTenantID(ctx).value;
        var buckets := Aggregate(SelectRows(events, tenant, f));
        out == Pass &&
        (forall d :: d in buckets ==> DailyMatches((tenant, BotKey(f.botId), d), buckets[d])) &&
        daily.Keys == old(daily).Keys + (set d | d in buckets :: (tenant, BotKey(f.botId), d)) &&
        (forall tn, bt, d :: (tn, bt, d) in old(daily) && !(tn == tenant && bt == BotKey(f.botId) && d in buckets) ==> daily[(tn, bt, d)] == old(daily)[(tn, bt, d)])
    {
      var tenant := RequireTenantID(ctx);
      if tenant.Fail? {
        return Failed(tenant.error);
      }
      var t := tenant.value;
      var bot := BotKey(f.botId);
      var buckets, days := BucketRows(SelectRows(events, t, f));
      UpsertDays(t, bot, buckets, days);
      out := Pass;
    }

    /** RefreshDaily's write loop over the buckets' days. */
    method UpsertDays(t: string, bot: string, buckets: map<int, Agg>, days: seq<int>)
      requires forall d :: d in days <==> d in buckets
      requires forall d :: d in buckets ==> |buckets[d].latencies| > 0
      modifies this
      ensures events == old(events)
      ensures forall d :: d in buckets ==> DailyMatches((t, bot, d), buckets[d])
      ensures daily.Keys == old(daily).Keys + (set d | d in buckets :: (t, bot, d))
      ensures forall tn, bt, d :: (tn, bt, d) in old(daily) && !(tn == t && bt == bot && d in buckets) ==> daily[(tn, bt, d)] == old(daily)[(tn, bt, d)]
    {
      var i := 0;
      while i < |days|
        invariant 0 <= i <= |days|
        invariant events == old(events)
        invariant forall d :: d in days[..i] ==> DailyMatches((t, bot, d), buckets[d])
        invariant daily.Keys == old(daily).Keys + (set d | d in days[..i] :: (t, bot, d))
        invariant forall tn, bt, d :: (tn, bt, d) in old(daily) && !(tn == t && bt == bot && d in days[..i]) ==> daily[(tn, bt, d)] == old(daily)[(tn, bt, d)]
      {
        var day := days[i];
        ghost var before := daily;
        var p95 := UpsertBucket(t, bot, day, buckets[day]);
        assert DailyMatches((t, bot, day), buckets[day]);
        forall d | d in days[..i] && d != day
          ensures DailyMatches((t, bot, d), buckets[d])
        {
          assert daily[(t, bot, d)] == before[(t, bot, d)];
        }
        assert days[..i + 1] == days[..i] + [day];
        i := i + 1;
      }
      assert days[..|days|] == days;
    }

    /** One bucket's percentile and upsert. */
    method UpsertBucket(tenant: string, bot: string, day: int, b: Agg) returns (p95: real)
      modifies this
      ensures events == old(events)
      ensures daily == old(daily)[(tenant, bot, day) := DailyOf(day, b, p95)]
      ensures |b.latencies| > 0 ==> IsPercentile(p95, b.latencies, 0.95)
    {
      var latencies := new int[|b.latencies|](i requires 0 <= i < |b.latencies| => b.latencies[i]);
      assert latencies[..] == b.latencies;
      p95 := ComputePercentile(latencies, 0.95);
      if |b.latencies| > 0 {
        assert IsPercentile(p95, b.latencies, 0.95) by {
          assert SortedInts(latencies[..]) && multiset(latencies[..]) == multiset(b.latencies);
        }
      }
      daily := daily[(tenant, bot, day) := DailyOf(day, b, p95)];
    }
  }
}

/** The analytics usecase's recording and overview entry points, over the
    repository above. */
module AnalyticsRecording {
  import opened Wrappers
  import opened Contexts
  import opened Tenancy
  import opened Analytics
  import opened AnalyticsStore

  class AnalyticsUsecase {
    const repo: AnalyticsRepo?

    constructor (repo: AnalyticsRepo?)
      ensures this.repo == repo
    {
      this.repo := repo;
    }

    /** recordEvent: without a repository nothing happens; otherwise the
        prepared event goes to CreateEvent, whose error is only logged. */
    method RecordEvent(ctx: Context, e: Event, eventType: string, now: int, freshId: string, repoId: string)
      requires repo != null ==> repo.Valid()
      modifies repo
      ensures repo != null ==> repo.Valid() && repo.daily == old(repo.daily)
      ensures repo != null ==>
        var row := repo.Insertable(ctx, Prepared(e, eventType, now, freshId), repoId, now);
        repo.events == old(repo.events) + (if row.Ok? then [row.value] else [])
    {
      if repo == null {
        return;
      }
      var prepared := Prepared(e, eventType, now, freshId);
      var _ := repo.CreateEvent(ctx, prepared, repoId, now);
    }

    /** RecordSessionEvent: an unknown type is recorded as `session_open`. */
    method RecordSessionEvent(ctx: Context, e: Event, eventType: string, now: int, freshId: string, repoId: string)
      requires repo != null ==> repo.Valid()
      modifies repo
      ensures repo != null ==> repo.Valid() && repo.daily == old(repo.daily)
      ensures repo != null ==>
        var row := repo.Insertable(ctx, Prepared(e, SessionEventType(eventType), now, freshId), repoId, now);
        repo.events == old(repo.events) + (if row.Ok? then [row.value] else [])
    {
      RecordEvent(ctx, e, SessionEventType(eventType), now, freshId, repoId);
    }

    /** GetOverview: the filter is normalized over the default window
        first. */
    method GetOverview(ctx: Context, f: Filter, now: int) returns (r: Result<Overview>)
      requires repo != null && repo.connected
      ensures RequireTenantID(ctx).Fail? ==> r == Fail(TenantMissing)
      ensures RequireTenantID(ctx).Ok? ==>
        var rows := SelectRows(repo.events, RequireTenantID(ctx).value, NormalizeFilter(f, DefaultWindow, now));
        r.Ok? && r.value == OverviewOf(rows, r.value.p95LatencyMs)
    {
      r := repo.GetOverview(ctx, NormalizeFilter(f, DefaultWindow, now));
    }
  }
}
