/** Analytics filters, event preparation and the query clamp
    (apps/server/internal/analytics/biz/analytics.go). Times are Unix
    seconds, 0 standing for Go's zero time. */
module Analytics {
  import opened Wrappers
  import opened Text

  const EventRAGQuery := "rag_query"
  const EventFeedback := "feedback"
  const EventRetrieval := "retrieval"
  const EventSessionOpen := "session_open"
  const EventSessionClose := "session_close"
  const EventMessageCreated := "message_created"

  /** Seven days, in seconds. */
  const DefaultWindow := 7 * 24 * 60 * 60
  const MaxQueryLength := 1024
  const MaxListLimit := 100

  datatype Event = Event(
    id: string, tenantId: string, botId: string, eventType: string, sessionId: string, messageId: string,
    query: string, hit: bool, confidence: real, latencyMs: int, statusCode: int, rating: int, createdAt: int)

  datatype Filter = Filter(botId: string, start: int, end: int, limit: int)

  /** normalizeFilter: the list limit is clamped to 1..100 (out-of-range
      values become 100), an unset range becomes the last `window`
      seconds, and a reversed range is swapped. */
  function NormalizeFilter(f: Filter, window: int, now: int): (r: Filter)
    ensures r.botId == f.botId
    ensures 1 <= r.limit <= MaxListLimit
    ensures 1 <= f.limit <= MaxListLimit ==> r.limit == f.limit
    ensures !(1 <= f.limit <= MaxListLimit) ==> r.limit == MaxListLimit
    ensures window > 0 && f.start == 0 && f.end == 0 && now != 0 && now - window != 0 ==>
      r.start == now - window && r.end == now
    ensures f.start != 0 && f.end != 0 && f.start <= f.end ==> r.start == f.start && r.end == f.end
    ensures f.start != 0 && f.end != 0 && f.end < f.start ==> r.start == f.end && r.end == f.start
    ensures (f.start == 0 || f.end == 0) && !(window > 0 && f.start == 0 && f.end == 0) ==> r.start == f.start && r.end == f.end
    ensures r.start != 0 && r.end != 0 ==> r.start <= r.end
  {
    var limit := if f.limit <= 0 || f.limit > MaxListLimit then MaxListLimit else f.limit;
    var (start, end) := if window > 0 && f.start == 0 && f.end == 0 then (now - window, now) else (f.start, f.end);
    if start != 0 && end != 0 && end < start then Filter(f.botId, end, start, limit)
    else Filter(f.botId, start, end, limit)
  }

  /** A filter that is already normal with a set range is left alone. */
  lemma NormalizeFilterIdempotent(f: Filter, window: int, now: int)
    requires NormalizeFilter(f, window, now).start != 0 && NormalizeFilter(f, window, now).end != 0
    ensures NormalizeFilter(NormalizeFilter(f, window, now), window, now) == NormalizeFilter(f, window, now)
  {
  }

  /** normalizeQuery: trimmed and cut to at most 1024 elements. */
  function NormalizeQuery(query: string): (r: string)
    ensures |r| <= MaxQueryLength
    ensures HasPrefix(TrimSpace(query), r)
    ensures |TrimSpace(query)| <= MaxQueryLength ==> r == TrimSpace(query)
    ensures |TrimSpace(query)| > MaxQueryLength ==> |r| == MaxQueryLength
  {
    var q := TrimSpace(query);
    if q == "" then ""
    else if |q| > MaxQueryLength then q[..MaxQueryLength]
    else q
  }

  /** The type RecordSessionEvent records: anything but the two session
      events counts as `session_open`. */
  function SessionEventType(eventType: string): (r: string)
    ensures r == EventSessionOpen || r == EventSessionClose
    ensures eventType == EventSessionOpen || eventType == EventSessionClose ==> r == eventType
  {
    if eventType != EventSessionOpen && eventType != EventSessionClose then EventSessionOpen else eventType
  }

  /** The event recordEvent hands to the repository: the type is
      overwritten, a non-empty query normalized, and a missing creation
      time and id filled in from the clock and a fresh id. */
  function Prepared(e: Event, eventType: string, now: int, freshId: string): (r: Event)
    ensures r.eventType == eventType
    ensures r.query == (if e.query == "" then "" else NormalizeQuery(e.query))
    ensures r.createdAt == (if e.createdAt == 0 then now else e.createdAt)
    ensures r.id == (if e.id == "" then freshId else e.id)
    ensures r.(eventType := e.eventType, query := e.query, createdAt := e.createdAt, id := e.id) == e
  {
    e.(eventType := eventType,
       query := if e.query != "" then NormalizeQuery(e.query) else e.query,
       createdAt := if e.createdAt == 0 then now else e.createdAt,
       id := if e.id == "" then freshId else e.id)
  }
}
