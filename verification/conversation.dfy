/** Chat sessions, their messages, audit events and feedback
    (apps/server/internal/conversation/biz/conversation.go), over an
    in-memory model of the conversation repository. Identifiers from uuid
    and the clock (Unix seconds) are parameters. */
module Conversation {
  import opened Wrappers
  import opened Text
  import opened Contexts
  import opened Tenancy
  import Paging

  const StatusBot := "bot"
  const StatusClosed := "closed"
  const RoleUser := "user"
  const RoleAssistant := "assistant"
  const EventOpen := "open"
  const EventClose := "close"
  const EventRefusal := "refusal"
  const EventEscalation := "escalation"

  const DefaultRetentionDays := 0
  const DefaultPurgeIntervalMinutes := 60
  const SecondsPerDay := 24 * 60 * 60

  datatype Session = Session(
    id: string, tenantId: string, botId: string, status: string, closeReason: string,
    userExternal: string, metadata: string, createdAt: int, updatedAt: int, closedAt: int)

  datatype Message = Message(
    id: string, tenantId: string, sessionId: string, role: string, content: string,
    confidence: real, references: string, createdAt: int)

  datatype SessionEvent = SessionEvent(id: string, tenantId: string, sessionId: string, eventType: string, detail: string, createdAt: int)

  datatype Feedback = Feedback(
    id: string, tenantId: string, sessionId: string, messageId: string, rating: int,
    comment: string, correction: string, createdAt: int)

  /** A purge handed to the repository: the tenant and the cutoff time. */
  datatype PurgeRequest = PurgeRequest(tenantId: string, cutoff: int)

  /** The conversation section of the configuration. */
  datatype RetentionConfig = RetentionConfig(retentionDays: int, purgeIntervalMinutes: int)

  const SessionIdMissing := BadRequest("SESSION_ID_MISSING")
  const BotIdMissing := BadRequest("BOT_ID_MISSING")
  const SessionNotFound := NotFound("SESSION_NOT_FOUND")
  const SessionStatusInvalid := PreconditionFailed("SESSION_STATUS_INVALID")
  const SessionBotMismatch := BadRequest("SESSION_BOT_MISMATCH")
  const SessionClosed := PreconditionFailed("SESSION_CLOSED")
  const FeedbackInvalid := BadRequest("FEEDBACK_INVALID")
  const FeedbackRatingInvalid := BadRequest("FEEDBACK_RATING_INVALID")
  /** The database's answer to a second row with the same key. */
  const DuplicateRow := Plain("duplicate entry")

  /** loadRetentionPolicy: retention days (0 disables purging) and the
      purge interval in seconds. Only positive configured values are
      taken; the interval defaults to 60 minutes. */
  function LoadRetentionPolicy(cfg: Option<RetentionConfig>): (r: (int, int))
    ensures r.0 >= 0 && r.1 > 0
    ensures cfg.None? ==> r == (DefaultRetentionDays, DefaultPurgeIntervalMinutes * 60)
    ensures cfg.Some? && cfg.value.retentionDays > 0 ==> r.0 == cfg.value.retentionDays
    ensures cfg.Some? && cfg.value.retentionDays <= 0 ==> r.0 == 0
    ensures cfg.Some? && cfg.value.purgeIntervalMinutes > 0 ==> r.1 == cfg.value.purgeIntervalMinutes * 60
    ensures cfg.Some? && cfg.value.purgeIntervalMinutes <= 0 ==> r.1 == DefaultPurgeIntervalMinutes * 60
  {
    var days := if cfg.Some? && cfg.value.retentionDays > 0 then cfg.value.retentionDays else DefaultRetentionDays;
    var minutes := if cfg.Some? && cfg.value.purgeIntervalMinutes > 0 then cfg.value.purgeIntervalMinutes else DefaultPurgeIntervalMinutes;
    (if days < 0 then 0 else days, (if minutes <= 0 then DefaultPurgeIntervalMinutes else minutes) * 60)
  }

  /** canCloseSession: only a session still with the bot can be closed. */
  predicate CanCloseSession(status: string) {
    status == StatusBot
  }

  /** isEscalationReason: the trimmed, lower-cased reason mentions
      `escalat` or `handoff`. */
  predicate IsEscalationReason(reason: string) {
    var r := Lower(TrimSpace(reason));
    Contains(r, "escalat") || Contains(r, "handoff")
  }

  /** A reason is an escalation exactly when its lower-cased text mentions
      `escalat` or `handoff`: the trimming never matters. */
  lemma EscalationReasonMentions(reason: string)
    ensures IsEscalationReason(reason) <==> Contains(Lower(reason), "escalat") || Contains(Lower(reason), "handoff")
  {
    LowerTrimSpace(reason);
    ContainsTrimSpace(Lower(reason), "escalat");
    ContainsTrimSpace(Lower(reason), "handoff");
  }

  /** Any spelling of `escalat`, in capitals or not, anywhere in a reason
      makes it an escalation. */
  lemma EscalatedIsEscalation(before: string, word: string, after: string)
    requires Lower(word) == "escalat"
    ensures IsEscalationReason(before + word + after)
  {
    var reason := before + word + after;
    var l := Lower(reason);
    forall m | 0 <= m < |word| ensures l[|before| + m] == "escalat"[m] {
      assert reason[|before| + m] == word[m];
      assert Lower(word)[m] == LowerChar(word[m]);
    }
    assert l[|before|..|before| + |word|] == "escalat";
    assert OccursAt(l, "escalat", |before|);
    EscalationReasonMentions(reason);
  }

  /** The events CloseSession records: `close`, then `escalation` when the
      reason asks for it, both carrying the trimmed reason. */
  function CloseEvents(tenantId: string, sessionId: string, reason: string, closeEventId: string, escalationEventId: string, now: int): (es: seq<SessionEvent>)
    ensures 1 <= |es| <= 2 && es[0].eventType == EventClose
    ensures |es| == 2 <==> IsEscalationReason(reason)
    ensures |es| == 2 ==> es[1].eventType == EventEscalation
    ensures forall i :: 0 <= i < |es| ==> es[i].sessionId == sessionId && es[i].tenantId == tenantId && es[i].detail == TrimSpace(reason)
  {
    var close := SessionEvent(closeEventId, tenantId, sessionId, EventClose, TrimSpace(reason), now);
    if IsEscalationReason(reason) then [close, SessionEvent(escalationEventId, tenantId, sessionId, EventEscalation, TrimSpace(reason), now)]
    else [close]
  }

  /** The messages of one session, in the order they were written. */
  function MessagesOf(messages: seq<Message>, tenantId: string, sessionId: string): (r: seq<Message>)
    ensures |r| <= |messages|
    ensures forall i :: 0 <= i < |r| ==> r[i].tenantId == tenantId && r[i].sessionId == sessionId
    decreases |messages|
  {
    if messages == [] then []
    else
      var prev := MessagesOf(messages[..|messages| - 1], tenantId, sessionId);
      var m := messages[|messages| - 1];
      if m.tenantId == tenantId && m.sessionId == sessionId then prev + [m] else prev
  }

  /** Writing more messages only adds to the end of a session's history. */
  lemma {:induction false} MessagesOfAppend(messages: seq<Message>, more: seq<Message>, tenantId: string, sessionId: string)
    ensures MessagesOf(messages + more, tenantId, sessionId) ==
            MessagesOf(messages, tenantId, sessionId) + MessagesOf(more, tenantId, sessionId)
    decreases |more|
  {
    if more == [] {
      assert messages + more == messages;
    } else {
      var init := more[..|more| - 1];
      assert (messages + more)[..|messages + more| - 1] == messages + init;
      MessagesOfAppend(messages, init, tenantId, sessionId);
    }
  }

  /** A history written only for one session is that session's history. */
  lemma {:induction false} MessagesOfOwn(messages: seq<Message>, tenantId: string, sessionId: string)
    requires forall i :: 0 <= i < |messages| ==> messages[i].tenantId == tenantId && messages[i].sessionId == sessionId
    ensures MessagesOf(messages, tenantId, sessionId) == messages
    decreases |messages|
  {
    if messages != [] {
      MessagesOfOwn(messages[..|messages| - 1], tenantId, sessionId);
      assert messages == messages[..|messages| - 1] + [messages[|messages| - 1]];
    }
  }

  /** Messages whose creation times never decrease. */
  predicate TimeOrdered(ms: seq<Message>) {
    forall i, j :: 0 <= i < j < |ms| ==> ms[i].createdAt <= ms[j].createdAt
  }

  /** Places `m` after every message of `sorted` created no later than it. */
  function InsertByTime(sorted: seq<Message>, m: Message): (r: seq<Message>)
    ensures multiset(r) == multiset(sorted) + multiset{m}
    decreases |sorted|
  {
    if sorted == [] || sorted[|sorted| - 1].createdAt <= m.createdAt then sorted + [m]
    else
      var init := sorted[..|sorted| - 1];
      assert sorted == init + [sorted[|sorted| - 1]];
      InsertByTime(init, m) + [sorted[|sorted| - 1]]
  }

  /** Inserting into a time-ordered history keeps it time-ordered. */
  lemma {:induction false} InsertByTimeOrdered(sorted: seq<Message>, m: Message)
    requires TimeOrdered(sorted)
    ensures TimeOrdered(InsertByTime(sorted, m))
    decreases |sorted|
  {
    if sorted != [] && sorted[|sorted| - 1].createdAt > m.createdAt {
      var last := sorted[|sorted| - 1];
      var init := sorted[..|sorted| - 1];
      assert sorted == init + [last];
      InsertByTimeOrdered(init, m);
      var front := InsertByTime(init, m);
      InsertByTimeBounded(init, m, last.createdAt);
      assert front + [last] == InsertByTime(sorted, m);
    }
  }

  /** Inserting keeps every creation time under a common bound. */
  lemma {:induction false} InsertByTimeBounded(sorted: seq<Message>, m: Message, bound: int)
    requires forall i :: 0 <= i < |sorted| ==> sorted[i].createdAt <= bound
    requires m.createdAt <= bound
    ensures forall i :: 0 <= i < |InsertByTime(sorted, m)| ==> InsertByTime(sorted, m)[i].createdAt <= bound
    decreases |sorted|
  {
    if sorted != [] && sorted[|sorted| - 1].createdAt > m.createdAt {
      InsertByTimeBounded(sorted[..|sorted| - 1], m, bound);
    }
  }

  /** `ORDER BY created_at ASC`, stable: messages created at the same time
      keep the order they were written in. */
  function ByCreatedAt(ms: seq<Message>): (r: seq<Message>)
    ensures multiset(r) == multiset(ms)
    decreases |ms|
  {
    if ms == [] then []
    else
      assert ms == ms[..|ms| - 1] + [ms[|ms| - 1]];
      InsertByTime(ByCreatedAt(ms[..|ms| - 1]), ms[|ms| - 1])
  }

  /** The listing is in time order. */
  lemma {:induction false} ByCreatedAtSorted(ms: seq<Message>)
    ensures TimeOrdered(ByCreatedAt(ms))
    decreases |ms|
  {
    if ms != [] {
      ByCreatedAtSorted(ms[..|ms| - 1]);
      InsertByTimeOrdered(ByCreatedAt(ms[..|ms| - 1]), ms[|ms| - 1]);
    }
  }

  /** A history already in time order is listed as written. */
  lemma {:induction false} ByCreatedAtOrdered(ms: seq<Message>)
    requires TimeOrdered(ms)
    ensures ByCreatedAt(ms) == ms
    decreases |ms|
  {
    if ms != [] {
      var init := ms[..|ms| - 1];
      assert TimeOrdered(init);
      ByCreatedAtOrdered(init);
      assert ms == init + [ms[|ms| - 1]];
    }
  }

  /** The listing of one session: its messages by creation time. */
  function Listing(messages: seq<Message>, tenantId: string, sessionId: string): (r: seq<Message>)
    ensures TimeOrdered(r)
    ensures multiset(r) == multiset(MessagesOf(messages, tenantId, sessionId))
    ensures forall i :: 0 <= i < |r| ==> r[i].tenantId == tenantId && r[i].sessionId == sessionId
  {
    var own := MessagesOf(messages, tenantId, sessionId);
    var r := ByCreatedAt(own);
    ByCreatedAtSorted(own);
    assert forall i :: 0 <= i < |r| ==> r[i] in multiset(own);
    r
  }

  /** A time-ordered history written only for one session lists as itself. */
  lemma ListingOwn(messages: seq<Message>, tenantId: string, sessionId: string)
    requires forall i :: 0 <= i < |messages| ==> messages[i].tenantId == tenantId && messages[i].sessionId == sessionId
    requires TimeOrdered(messages)
    ensures Listing(messages, tenantId, sessionId) == messages
  {
    MessagesOfOwn(messages, tenantId, sessionId);
    ByCreatedAtOrdered(messages);
  }

  /** Two messages of one session written in time order list as written. */
  lemma ListingPair(a: Message, b: Message, tenantId: string, sessionId: string)
    requires a.tenantId == b.tenantId == tenantId && a.sessionId == b.sessionId == sessionId
    requires a.createdAt <= b.createdAt
    ensures Listing([a, b], tenantId, sessionId) == [a, b]
  {
    ListingOwn([a, b], tenantId, sessionId);
  }

  /** LIMIT/OFFSET over a list. */
  function Page<T>(items: seq<T>, limit: int, offset: int): (r: seq<T>)
    requires limit >= 0 && offset >= 0
    ensures |r| <= limit
    ensures offset >= |items| ==> r == []
    ensures offset + limit <= |items| ==> r == items[offset..offset + limit]
  {
    if offset >= |items| then []
    else if offset + limit <= |items| then items[offset..offset + limit]
    else items[offset..]
  }

  /** Whether maybePurge starts a purge: retention is on, the context
      names a non-blank tenant, and no purge started within the last
      interval (a zero last-purge time means never). */
  predicate PurgeDue(retentionDays: int, interval: int, lastPurge: int, ctx: Context, now: int) {
    retentionDays > 0 && interval > 0 && TenantID(ctx).1 && TrimSpace(TenantID(ctx).0) != "" &&
    !(lastPurge != 0 && now - lastPurge < interval)
  }

  class ConversationUsecase {
    const retentionDays: int
    /** In seconds. */
    const purgeInterval: int
    var lastPurge: int
    /** The purges started, in order (the repository runs them in the
        background). */
    var purges: seq<PurgeRequest>
    var sessions: map<(string, string), Session>
    var messages: seq<Message>
    var events: seq<SessionEvent>
    var feedback: seq<Feedback>

    /** Sessions are stored under their tenant and id and are either with
        the bot or closed; every message and event belongs to a stored
        session. */
    ghost predicate Valid()
      reads this
    {
      (forall k :: k in sessions ==>
         sessions[k].tenantId == k.0 && sessions[k].id == k.1 &&
         (sessions[k].status == StatusBot || sessions[k].status == StatusClosed)) &&
      (forall i :: 0 <= i < |messages| ==> (messages[i].tenantId, messages[i].sessionId) in sessions) &&
      (forall i :: 0 <= i < |events| ==> (events[i].tenantId, events[i].sessionId) in sessions)
    }

    /** The purge bookkeeping maybePurge leaves behind, given its state
        before. */
    predicate PurgeStep(lastBefore: int, purgesBefore: seq<PurgeRequest>, ctx: Context, now: int)
      reads this
    {
      if PurgeDue(retentionDays, purgeInterval, lastBefore, ctx, now) then
        lastPurge == now && purges == purgesBefore + [PurgeRequest(TenantID(ctx).0, now - retentionDays * SecondsPerDay)]
      else
        lastPurge == lastBefore && purges == purgesBefore
    }

    /** NewConversationUsecase. */
    constructor (cfg: Option<RetentionConfig>)
      ensures Valid()
      ensures (retentionDays, purgeInterval) == LoadRetentionPolicy(cfg)
      ensures lastPurge == 0 && purges == [] && sessions == map[] && messages == [] && events == [] && feedback == []
    {
      var policy := LoadRetentionPolicy(cfg);
      retentionDays := policy.0;
      purgeInterval := policy.1;
      lastPurge := 0;
      purges := [];
      sessions := map[];
      messages := [];
      events := [];
      feedback := [];
    }

    /** The repository's GetSession. */
    function GetSessionRow(ctx: Context, sessionId: string): (r: Result<Session>)
      reads this
      ensures RequireTenantID(ctx).Fail? ==> r == Fail(TenantMissing)
      ensures RequireTenantID(ctx).Ok? ==>
        ((RequireTenantID(ctx).value, sessionId) in sessions ==> r == Ok(sessions[(RequireTenantID(ctx).value, sessionId)])) &&
        ((RequireTenantID(ctx).value, sessionId) !in sessions ==> r == Fail(SessionNotFound))
    {
      var tenant :- RequireTenantID(ctx);
      if (tenant, sessionId) in sessions then Ok(sessions[(tenant, sessionId)]) else Fail(SessionNotFound)
    }

    /** maybePurge: at most one purge per interval, and none without
        retention or a tenant. */
    method MaybePurge(ctx: Context, now: int)
      modifies this
      ensures PurgeStep(old(lastPurge), old(purges), ctx, now)
      ensures sessions == old(sessions) && messages == old(messages) && events == old(events) && feedback == old(feedback)
    {
      if retentionDays <= 0 || purgeInterval <= 0 {
        return;
      }
      var (tenantId, ok) := TenantID(ctx);
      if !ok || TrimSpace(tenantId) == "" {
        return;
      }
      if lastPurge != 0 && now - lastPurge < purgeInterval {
        return;
      }
      lastPurge := now;
      purges := purges + [PurgeRequest(tenantId, now - retentionDays * SecondsPerDay)];
    }

    /** CreateSession: the bot id is trimmed and required; the new session
        is with the bot and an `open` event is recorded. */
    method CreateSession(ctx: Context, botId: string, userExternal: string, metadataJson: Option<string>,
                         sessionId: string, eventId: string, now: int) returns (r: Result<Session>)
      requires Valid()
      modifies this
      ensures Valid()
      ensures TrimSpace(botId) == "" ==> r == Fail(BotIdMissing) && unchanged(this)
      ensures TrimSpace(botId) != "" ==> PurgeStep(old(lastPurge), old(purges), ctx, now) && messages == old(messages) && feedback == old(feedback)
      ensures TrimSpace(botId) != "" && RequireTenantID(ctx).Fail? ==>
        r == Fail(TenantMissing) && sessions == old(sessions) && events == old(events)
      ensures TrimSpace(botId) != "" && RequireTenantID(ctx).Ok? ==>
        var tenant := RequireTenantID(ctx).value;
        var s := Session(sessionId, tenant, TrimSpace(botId), StatusBot, "", TrimSpace(userExternal), metadataJson.GetOr(""), now, now, 0);
        ((tenant, sessionId) in old(sessions) ==> r == Fail(DuplicateRow) && sessions == old(sessions) && events == old(events)) &&
        ((tenant, sessionId) !in old(sessions) ==>
           r == Ok(s) && sessions == old(sessions)[(tenant, sessionId) := s] &&
           events == old(events) + [SessionEvent(eventId, tenant, sessionId, EventOpen, "", now)])
    {
      var bot := TrimSpace(botId);
      if bot == "" {
        return Fail(BotIdMissing);
      }
      MaybePurge(ctx, now);
      var tenant := RequireTenantID(ctx);
      if tenant.Fail? {
        return Fail(tenant.error);
      }
      var s := Session(sessionId, tenant.value, bot, StatusBot, "", TrimSpace(userExternal), metadataJson.GetOr(""), now, now, 0);
      if (tenant.value, sessionId) in sessions {
        return Fail(DuplicateRow);
      }
      sessions := sessions[(tenant.value, sessionId) := s];
      events := events + [SessionEvent(eventId, tenant.value, sessionId, EventOpen, "", now)];
      r := Ok(s);
    }

    /** CloseSession: closing a closed session succeeds and writes nothing;
        otherwise only a session with the bot may be closed (412 for any
        other status). */
    method CloseSession(ctx: Context, sessionId: string, reason: string, closeEventId: string, escalationEventId: string, now: int)
      returns (out: Outcome)
      requires Valid()
      modifies this
      ensures Valid()
      ensures messages == old(messages) && feedback == old(feedback)
      ensures TrimSpace(sessionId) == "" ==> out == Failed(SessionIdMissing) && unchanged(this)
      ensures TrimSpace(sessionId) != "" ==> PurgeStep(old(lastPurge), old(purges), ctx, now)
      ensures TrimSpace(sessionId) != "" && old(GetSessionRow(ctx, TrimSpace(sessionId))).Fail? ==>
        out == Failed(old(GetSessionRow(ctx, TrimSpace(sessionId))).error) && sessions == old(sessions) && events == old(events)
      ensures TrimSpace(sessionId) != "" && old(GetSessionRow(ctx, TrimSpace(sessionId))).Ok? ==>
        var s := old(GetSessionRow(ctx, TrimSpace(sessionId))).value;
        var key := (RequireTenantID(ctx).value, TrimSpace(sessionId));
        (s.status == StatusClosed ==> out == Pass && sessions == old(sessions) && events == old(events)) &&
        (s.status != StatusClosed && !CanCloseSession(s.status) ==>
           out == Failed(SessionStatusInvalid) && sessions == old(sessions) && events == old(events)) &&
        (CanCloseSession(s.status) ==>
           out == Pass &&
           sessions == old(sessions)[key := s.(status := StatusClosed, closeReason := TrimSpace(reason), updatedAt := now, closedAt := now)] &&
           events == old(events) + CloseEvents(key.0, key.1, reason, closeEventId, escalationEventId, now))
    {
      var id := TrimSpace(sessionId);
      if id == "" {
        return Failed(SessionIdMissing);
      }
      MaybePurge(ctx, now);
      var found := GetSessionRow(ctx, id);
      if found.Fail? {
        return Failed(found.error);
      }
      var s := found.value;
      if s.status == StatusClosed {
        return Pass;
      }
      if !CanCloseSession(s.status) {
        return Failed(SessionStatusInvalid);
      }
      var tenant := RequireTenantID(ctx).value;
      sessions := sessions[(tenant, id) := s.(status := StatusClosed, closeReason := TrimSpace(reason), updatedAt := now, closedAt := now)];
      events := events + CloseEvents(tenant, id, reason, closeEventId, escalationEventId, now);
      out := Pass;
    }

    /** RecordRAGExchange: without a session id nothing is recorded;
        otherwise the session must belong to the same bot (when both are
        known) and be open, and the user and assistant messages are written
        in that order, with a `refusal` event when the answer was a
        refusal. The user message's id is returned. */
    method RecordRAGExchange(ctx: Context, sessionId: string, botId: string, userMessage: string, answer: string,
                             confidence: real, refused: bool, referencesJson: string,
                             userMessageId: string, assistantMessageId: string, eventId: string, now: int)
      returns (r: Result<string>)
      requires Valid()
      modifies this
      ensures Valid()
      ensures sessions == old(sessions) && feedback == old(feedback)
      ensures TrimSpace(sessionId) == "" ==> r == Ok("") && unchanged(this)
      ensures TrimSpace(sessionId) != "" ==> PurgeStep(old(lastPurge), old(purges), ctx, now)
      ensures r.Fail? || TrimSpace(sessionId) == "" ==> messages == old(messages) && events == old(events)
      ensures TrimSpace(sessionId) != "" ==>
        var found := old(GetSessionRow(ctx, TrimSpace(sessionId)));
        (found.Fail? ==> r == Fail(found.error)) &&
        (found.Ok? && botId != "" && found.value.botId != "" && botId != found.value.botId ==> r == Fail(SessionBotMismatch)) &&
        (found.Ok? && !(botId != "" && found.value.botId != "" && botId != found.value.botId) && found.value.status == StatusClosed ==>
           r == Fail(SessionClosed)) &&
        (r.Ok? <==> found.Ok? && !(botId != "" && found.value.botId != "" && botId != found.value.botId) && found.value.status != StatusClosed)
      ensures r.Ok? && TrimSpace(sessionId) != "" ==>
        var tenant := RequireTenantID(ctx).value;
        var id := TrimSpace(sessionId);
        r.value == userMessageId &&
        messages == old(messages) + [Message(userMessageId, tenant, id, RoleUser, TrimSpace(userMessage), 0.0, "", now),
                                     Message(assistantMessageId, tenant, id, RoleAssistant, TrimSpace(answer), confidence, TrimSpace(referencesJson), now)] &&
        events == old(events) + (if refused then [SessionEvent(eventId, tenant, id, EventRefusal, "", now)] else [])
    {
      var id := TrimSpace(sessionId);
      if id == "" {
        return Ok("");
      }
      MaybePurge(ctx, now);
      var found := GetSessionRow(ctx, id);
      if found.Fail? {
        return Fail(found.error);
      }
      var s := found.value;
      if botId != "" && s.botId != "" && botId != s.botId {
        return Fail(SessionBotMismatch);
      }
      if s.status == StatusClosed {
        return Fail(SessionClosed);
      }
      var tenant := RequireTenantID(ctx).value;
      var user := Message(userMessageId, tenant, id, RoleUser, TrimSpace(userMessage), 0.0, "", now);
      var assistant := Message(assistantMessageId, tenant, id, RoleAssistant, TrimSpace(answer), confidence, TrimSpace(referencesJson), now);
      messages := messages + [user, assistant];
      if refused {
        events := events + [SessionEvent(eventId, tenant, id, EventRefusal, "", now)];
      }
      r := Ok(userMessageId);
    }

    /** CreateFeedback: session and message ids are trimmed and required,
        then a rating of 0 is refused; comment and correction are
        trimmed. */
    method CreateFeedback(ctx: Context, sessionId: string, messageId: string, rating: int, comment: string, correction: string,
                          feedbackId: string, now: int) returns (out: Outcome)
      requires Valid()
      modifies this
      ensures Valid()
      ensures sessions == old(sessions) && messages == old(messages) && events == old(events)
      ensures TrimSpace(sessionId) == "" || TrimSpace(messageId) == "" ==> out == Failed(FeedbackInvalid) && unchanged(this)
      ensures TrimSpace(sessionId) != "" && TrimSpace(messageId) != "" ==>
        PurgeStep(old(lastPurge), old(purges), ctx, now) &&
        (rating == 0 ==> out == Failed(FeedbackRatingInvalid) && feedback == old(feedback)) &&
        (rating != 0 && RequireTenantID(ctx).Fail? ==> out == Failed(TenantMissing) && feedback == old(feedback)) &&
        (rating != 0 && RequireTenantID(ctx).Ok? ==>
           out == Pass &&
           feedback == old(feedback) + [Feedback(feedbackId, RequireTenantID(ctx).value, TrimSpace(sessionId), TrimSpace(messageId),
                                                 rating, TrimSpace(comment), TrimSpace(correction), now)])
    {
      var sid := TrimSpace(sessionId);
      var mid := TrimSpace(messageId);
      if sid == "" || mid == "" {
        return Failed(FeedbackInvalid);
      }
      MaybePurge(ctx, now);
      if rating == 0 {
        return Failed(FeedbackRatingInvalid);
      }
      var tenant := RequireTenantID(ctx);
      if tenant.Fail? {
        return Failed(tenant.error);
      }
      feedback := feedback + [Feedback(feedbackId, tenant.value, sid, mid, rating, TrimSpace(comment), TrimSpace(correction), now)];
      out := Pass;
    }

    /** ListMessages: the session's messages under normalized paging. */
    method ListMessages(ctx: Context, sessionId: string, limit: int, offset: int, now: int) returns (r: Result<seq<Message>>)
      modifies this
      ensures sessions == old(sessions) && messages == old(messages) && events == old(events) && feedback == old(feedback)
      ensures TrimSpace(sessionId) == "" ==> r == Fail(SessionIdMissing) && unchanged(this)
      ensures TrimSpace(sessionId) != "" ==> PurgeStep(old(lastPurge), old(purges), ctx, now)
      ensures TrimSpace(sessionId) != "" && RequireTenantID(ctx).Fail? ==> r == Fail(TenantMissing)
      ensures TrimSpace(sessionId) != "" && RequireTenantID(ctx).Ok? ==>
        var (l, o) := Paging.Normalize(limit, offset);
        r == Ok(Page(Listing(messages, RequireTenantID(ctx).value, TrimSpace(sessionId)), l, o))
    {
      var id := TrimSpace(sessionId);
      if id == "" {
        return Fail(SessionIdMissing);
      }
      MaybePurge(ctx, now);
      var (l, o) := Paging.Normalize(limit, offset);
      var tenant := RequireTenantID(ctx);
      if tenant.Fail? {
        return Fail(tenant.error);
      }
      r := Ok(Page(Listing(messages, tenant.value, id), l, o));
    }

    /** GetSession: the session, and its messages only when asked for. */
    method GetSession(ctx: Context, sessionId: string, includeMessages: bool, limit: int, offset: int, now: int)
      returns (r: Result<(Session, seq<Message>)>)
      modifies this
      ensures sessions == old(sessions) && messages == old(messages) && events == old(events) && feedback == old(feedback)
      ensures TrimSpace(sessionId) == "" ==> r == Fail(SessionIdMissing) && unchanged(this)
      ensures TrimSpace(sessionId) != "" ==>
        PurgeStep(old(lastPurge), old(purges), ctx, now) &&
        (GetSessionRow(ctx, TrimSpace(sessionId)).Fail? ==> r == Fail(GetSessionRow(ctx, TrimSpace(sessionId)).error)) &&
        (GetSessionRow(ctx, TrimSpace(sessionId)).Ok? && !includeMessages ==> r == Ok((GetSessionRow(ctx, TrimSpace(sessionId)).value, []))) &&
        (GetSessionRow(ctx, TrimSpace(sessionId)).Ok? && includeMessages ==>
           var (l, o) := Paging.Normalize(limit, offset);
           r == Ok((GetSessionRow(ctx, TrimSpace(sessionId)).value,
                    Page(Listing(messages, RequireTenantID(ctx).value, TrimSpace(sessionId)), l, o))))
    {
      var id := TrimSpace(sessionId);
      if id == "" {
        return Fail(SessionIdMissing);
      }
      MaybePurge(ctx, now);
      var found := GetSessionRow(ctx, id);
      if found.Fail? {
        return Fail(found.error);
      }
      if !includeMessages {
        return Ok((found.value, []));
      }
      var (l, o) := Paging.Normalize(limit, offset);
      r := Ok((found.value, Page(Listing(messages, RequireTenantID(ctx).value, id), l, o)));
    }
  }

  /** The session lifecycle: a new session is with the bot, takes an
      exchange, closes, closes again without effect, and then refuses
      further exchanges. */
  method Lifecycle(ctx: Context, botId: string, question: string, answer: string, reason: string, now: int)
    returns (second: Outcome, late: Result<string>, history: seq<Message>)
    requires RequireTenantID(ctx).Ok? && TrimSpace(botId) != ""
    ensures second == Pass
    ensures late == Fail(SessionClosed)
    ensures |history| == 2 && history[0].role == RoleUser && history[1].role == RoleAssistant
  {
    var uc := new ConversationUsecase(None);
    TrimSpaceUntouched("s1");
    var tenant := RequireTenantID(ctx).value;
    var key := (tenant, "s1");
    var created := uc.CreateSession(ctx, botId, "", None, "s1", "e1", now);
    assert key in uc.sessions && uc.sessions[key].status == StatusBot;
    assert uc.messages == [];
    var id := uc.RecordRAGExchange(ctx, "s1", "", question, answer, 0.5, false, "", "m1", "m2", "e2", now);
    assert id.Ok?;
    var msgs := uc.messages;
    assert msgs == [Message("m1", tenant, "s1", RoleUser, TrimSpace(question), 0.0, "", now),
                    Message("m2", tenant, "s1", RoleAssistant, TrimSpace(answer), 0.5, "", now)];
    var first := uc.CloseSession(ctx, "s1", reason, "e3", "e4", now);
    assert key in uc.sessions && uc.sessions[key].status == StatusClosed;
    second := uc.CloseSession(ctx, "s1", reason, "e5", "e6", now);
    assert uc.sessions[key].status == StatusClosed;
    late := uc.RecordRAGExchange(ctx, "s1", "", question, answer, 0.5, false, "", "m3", "m4", "e7", now);
    assert uc.messages == msgs;
    ListingPair(msgs[0], msgs[1], tenant, "s1");
    history := Listing(msgs, tenant, "s1");
  }

  /** Two purges of one tenant never start within one interval of each
      other. */
  method PurgeThrottled(ctx: Context, now: int, later: int) returns (count: nat)
    requires TenantID(ctx).1 && TrimSpace(TenantID(ctx).0) != ""
    requires now != 0 && now <= later < now + 60 * 60
    ensures count == 1
  {
    var uc := new ConversationUsecase(Some(RetentionConfig(30, 60)));
    uc.MaybePurge(ctx, now);
    uc.MaybePurge(ctx, later);
    count := |uc.purges|;
  }
}
