/** The ingestion queue (apps/server/internal/knowledge/data/queue.go):
    what a consumer does with one delivery, on RabbitMQ and on Redis, and
    the runtime settings. The brokers, JSON and the clock are parameters;
    the Redis lists are sequences. */
module IngestionQueue {
  import opened Wrappers
  import opened Text
  import opened Knowledge

  const QueueName := "ragdesk.ingestion"
  const RetryQueueName := "ragdesk.ingestion.retry"
  const DeadLetterQueueName := "ragdesk.ingestion.dlq"
  const RetryHeader := "x-retry"
  const DefaultMaxRetries := 3
  const DefaultBackoffBaseMs := 500
  const DefaultWorkerCount := 1
  const MaxRetriesCap := 10
  const MaxWorkers := 32

  // ------------------------------------------------------------ headers

  /** An AMQP header value, as far as getRetryCount tells them apart. */
  datatype HeaderValue = Int32(i: int) | Int64(i: int) | Int(i: int) | Str(s: string) | OtherValue

  /** An AMQP table; `None` is a nil table. */
  type Headers = Option<map<string, HeaderValue>>

  /** getRetryCount: the x-retry header as a number, and 0 when the table is
      nil, the header is missing, or it is neither an integer nor a decimal
      string. */
  function RetryCount(headers: Headers): (n: int)
    ensures headers.None? || RetryHeader !in headers.value ==> n == 0
    ensures headers.Some? && RetryHeader in headers.value && headers.value[RetryHeader].OtherValue? ==> n == 0
    ensures headers.Some? && RetryHeader in headers.value && headers.value[RetryHeader].Str? &&
            ParseInt(headers.value[RetryHeader].s).None?
            ==> n == 0
  {
    if headers.None? || RetryHeader !in headers.value then 0
    else
      match headers.value[RetryHeader]
      case Int32(i) => i
      case Int64(i) => i
      case Int(i) => i
      case Str(s) => ParseInt(s).GetOr(0)
      case OtherValue => 0
  }

  /** cloneHeaders: a fresh table with the same entries; a nil table gives
      an empty one. */
  function CloneHeaders(headers: Headers): (c: map<string, HeaderValue>)
    ensures headers.None? ==> c == map[]
    ensures headers.Some? ==> c.Keys == headers.value.Keys && forall k :: k in c ==> c[k] == headers.value[k]
  {
    headers.GetOr(map[])
  }

  /** The header the consumer writes is the one getRetryCount reads back,
      whatever the message carried; and every other header is kept. */
  lemma RetryHeaderRoundTrip(headers: Headers, retry: int)
    ensures RetryCount(Some(CloneHeaders(headers)[RetryHeader := Int(retry)])) == retry
    ensures forall k :: k in CloneHeaders(headers) && k != RetryHeader ==>
      k in CloneHeaders(headers)[RetryHeader := Int(retry)] && CloneHeaders(headers)[RetryHeader := Int(retry)][k] == headers.value[k]
  {
  }

  /** A retry count sent as a decimal string reads back as that count. */
  lemma RetryHeaderFromString(headers: map<string, HeaderValue>, retry: int)
    requires MinInt64 <= retry <= MaxInt64
    ensures RetryCount(Some(headers[RetryHeader := Str(IntToString(retry))])) == retry
  {
    ParseIntToString(retry);
  }

  // ------------------------------------------------------------ retry policy

  function Pow2(n: nat): (p: nat)
    ensures p >= 1
  {
    if n == 0 then 1 else 2 * Pow2(n - 1)
  }

  /** The delay before a retry: the base for the first failure, the base
      times 2^retry after that. */
  function Backoff(retry: int, baseMs: int): int {
    if retry > 0 then baseMs * Pow2(retry) else baseMs
  }

  /** Each later retry waits twice as long as the one before. */
  lemma BackoffDoubles(retry: nat, baseMs: int)
    requires retry >= 1
    ensures Backoff(retry + 1, baseMs) == 2 * Backoff(retry, baseMs)
    ensures Backoff(1, baseMs) == 2 * Backoff(0, baseMs)
  {
  }

  /** What a failed job turns into. */
  datatype Disposition =
    | Requeue(retry: int, delayMs: int)   // back to the queue with the next count, after a delay
    | DeadLetter(retry: int)              // to the dead-letter queue with its count

  /** The decision of both consumers when the handler fails. */
  function FailureDisposition(retry: int, maxRetries: int, baseMs: int): (d: Disposition)
    ensures d.Requeue? <==> retry < maxRetries
    ensures d.Requeue? ==> d.retry == retry + 1 && d.delayMs == Backoff(retry, baseMs)
    ensures d.DeadLetter? ==> d.retry == retry
  {
    if retry < maxRetries then Requeue(retry + 1, Backoff(retry, baseMs)) else DeadLetter(retry)
  }

  /** The dispositions of a job that fails every time, from `retry` on. */
  function FailureRun(retry: int, maxRetries: int, baseMs: int): seq<Disposition>
    decreases if maxRetries > retry then maxRetries - retry else 0
  {
    var d := FailureDisposition(retry, maxRetries, baseMs);
    if d.DeadLetter? then [d] else [d] + FailureRun(retry + 1, maxRetries, baseMs)
  }

  /** A job that always fails is retried exactly maxRetries times, with
      counts 1, 2, ... and backoffs base, 2·base, 4·base, ..., and then
      dead-lettered with the count maxRetries. */
  lemma {:induction false} FailureRunShape(retry: int, maxRetries: int, baseMs: int)
    requires 0 <= retry <= maxRetries
    decreases maxRetries - retry
    ensures var run := FailureRun(retry, maxRetries, baseMs);
      |run| == maxRetries - retry + 1 && run[|run| - 1] == DeadLetter(maxRetries) &&
      forall i :: 0 <= i < |run| - 1 ==> run[i] == Requeue(retry + i + 1, Backoff(retry + i, baseMs))
  {
    if retry < maxRetries {
      FailureRunShape(retry + 1, maxRetries, baseMs);
      var rest := FailureRun(retry + 1, maxRetries, baseMs);
      var run := FailureRun(retry, maxRetries, baseMs);
      assert run == [Requeue(retry + 1, Backoff(retry, baseMs))] + rest;
      forall i | 1 <= i < |run| - 1
        ensures run[i] == Requeue(retry + i + 1, Backoff(retry + i, baseMs))
      {
        assert run[i] == rest[i - 1];
      }
    }
  }

  // ------------------------------------------------------------ RabbitMQ

  datatype Ack = Acked | Nacked(requeue: bool)

  /** A message handed to the broker; the expiration (ms, in decimal) is
      set only for a positive delay. */
  datatype Publication = Publication(queue: string, body: string, headers: map<string, HeaderValue>, expiration: Option<string>)

  function PublicationFor(queue: string, body: string, headers: map<string, HeaderValue>, delayMs: int): Publication {
    Publication(queue, body, headers, if delayMs > 0 then Some(IntToString(delayMs)) else None)
  }

  /** rabbitQueue.Enqueue: the job's JSON on the ingestion queue, with no
      headers and no expiration. */
  function EnqueuePublication(job: IngestionJob, encode: IngestionJob -> string): (p: Publication)
    ensures p.queue == QueueName && p.body == encode(job) && p.headers == map[] && p.expiration.None?
  {
    PublicationFor(QueueName, encode(job), map[], 0)
  }

  datatype RabbitStep = RabbitStep(publication: Option<Publication>, ack: Ack)

  /** One delivery in rabbitQueue.consume: an undecodable body is dropped
      (nack without requeue); a handled job is acked; a failed job is
      republished, to the retry queue with the next count and its backoff
      as expiration or to the dead-letter queue with its count, and acked
      once the broker took it, nacked for redelivery otherwise. */
  function RabbitDelivery(body: string, headers: Headers, decode: string -> Option<IngestionJob>,
                          handler: IngestionJob -> Outcome, publish: Publication -> Outcome,
                          maxRetries: int, baseMs: int): RabbitStep
  {
    match decode(body)
    case None => RabbitStep(None, Nacked(false))
    case Some(job) =>
      if handler(job).Pass? then RabbitStep(None, Acked)
      else
        var pub := match FailureDisposition(RetryCount(headers), maxRetries, baseMs)
          case Requeue(r, delay) => PublicationFor(RetryQueueName, body, CloneHeaders(headers)[RetryHeader := Int(r)], delay)
          case DeadLetter(r) => PublicationFor(DeadLetterQueueName, body, CloneHeaders(headers)[RetryHeader := Int(r)], 0);
        RabbitStep(Some(pub), if publish(pub).Pass? then Acked else Nacked(true))
  }

  /** The acknowledgement: drop exactly the undecodable, redeliver exactly
      when the republish failed, ack otherwise; a republished message keeps
      its body and its other headers, and its x-retry header is the next
      count on the retry queue (with the backoff as expiration) or the same
      count on the dead-letter queue. */
  lemma RabbitDeliveryShape(body: string, headers: Headers, decode: string -> Option<IngestionJob>,
                            handler: IngestionJob -> Outcome, publish: Publication -> Outcome,
                            maxRetries: int, baseMs: int)
    ensures var step := RabbitDelivery(body, headers, decode, handler, publish, maxRetries, baseMs);
      (step.ack == Nacked(false) <==> decode(body).None?) &&
      (step.publication.Some? <==> decode(body).Some? && handler(decode(body).value).Failed?) &&
      (step.ack == Nacked(true) <==> step.publication.Some? && publish(step.publication.value).Failed?) &&
      (step.publication.Some? ==>
         var p := step.publication.value;
         var retry := RetryCount(headers);
         p.body == body && RetryCount(Some(p.headers)) == (if retry < maxRetries then retry + 1 else retry) &&
         (forall k :: k in CloneHeaders(headers) && k != RetryHeader ==> k in p.headers && p.headers[k] == CloneHeaders(headers)[k]) &&
         (retry < maxRetries ==>
            p.queue == RetryQueueName &&
            p.expiration == (if Backoff(retry, baseMs) > 0 then Some(IntToString(Backoff(retry, baseMs))) else None)) &&
         (retry >= maxRetries ==> p.queue == DeadLetterQueueName && p.expiration.None?))
  {
    var step := RabbitDelivery(body, headers, decode, handler, publish, maxRetries, baseMs);
    if step.publication.Some? {
      var retry := RetryCount(headers);
      var d := FailureDisposition(retry, maxRetries, baseMs);
      RetryHeaderRoundTrip(headers, d.retry);
    }
  }

  // ------------------------------------------------------------ Redis

  /** redisIngestionPayload: the job and its retry count. */
  datatype RedisPayload = RedisPayload(job: IngestionJob, retry: int)

  /** JSON for the Redis list: the wrapped and the bare decoders, and the
      encoder of the wrapped form. */
  datatype RedisCodec = RedisCodec(
    encode: RedisPayload -> string,
    decodeWrapped: string -> Option<RedisPayload>,
    decodeBare: string -> Option<IngestionJob>)

  const UndecodablePayload := Plain("invalid ingestion payload")

  /** decodeRedisPayload: the wrapped form counts only when its job names a
      document or a version; otherwise the payload is read as a bare job
      with retry 0. */
  function DecodeRedisPayload(raw: string, codec: RedisCodec): (r: Result<RedisPayload>)
    ensures r.Ok? && r.value.retry != 0 ==>
      codec.decodeWrapped(raw) == Some(r.value) && (r.value.job.documentId != "" || r.value.job.documentVersionId != "")
    ensures r.Fail? ==> codec.decodeBare(raw).None?
  {
    var wrapped := codec.decodeWrapped(raw);
    if wrapped.Some? && (wrapped.value.job.documentId != "" || wrapped.value.job.documentVersionId != "") then Ok(wrapped.value)
    else
      match codec.decodeBare(raw)
      case None => Fail(UndecodablePayload)
      case Some(job) => Ok(RedisPayload(job, 0))
  }

  /** A codec whose wrapped form reads back what it wrote. */
  ghost predicate RoundTrips(codec: RedisCodec) {
    forall p :: codec.decodeWrapped(codec.encode(p)) == Some(p)
  }

  /** With such a codec, a payload for a job that names its document or
      version decodes to itself, retry count included. */
  lemma DecodeEncodedPayload(codec: RedisCodec, p: RedisPayload)
    requires RoundTrips(codec)
    requires p.job.documentId != "" || p.job.documentVersionId != ""
    ensures DecodeRedisPayload(codec.encode(p), codec) == Ok(p)
  {
    assert codec.decodeWrapped(codec.encode(p)) == Some(p);
  }

  /** What one popped payload leads to. */
  datatype RedisEffect =
    | Dropped                            // undecodable: logged and skipped
    | Handled                            // the handler succeeded
    | Requeued(payload: string, delayMs: int)
    | DeadLettered(payload: string)

  /** redisQueue.consume for one popped payload. */
  function RedisDelivery(raw: string, codec: RedisCodec, handler: IngestionJob -> Outcome, maxRetries: int, baseMs: int): (e: RedisEffect)
    ensures e.Dropped? <==> DecodeRedisPayload(raw, codec).Fail?
    ensures e.Handled? <==> DecodeRedisPayload(raw, codec).Ok? && handler(DecodeRedisPayload(raw, codec).value.job).Pass?
    ensures var p := DecodeRedisPayload(raw, codec);
      e.Requeued? ==>
        p.Ok? && p.value.retry < maxRetries &&
        e == Requeued(codec.encode(RedisPayload(p.value.job, p.value.retry + 1)), Backoff(p.value.retry, baseMs))
    ensures var p := DecodeRedisPayload(raw, codec);
      e.DeadLettered? ==> p.Ok? && p.value.retry >= maxRetries && e == DeadLettered(codec.encode(p.value))
  {
    match DecodeRedisPayload(raw, codec)
    case Fail(_) => Dropped
    case Ok(p) =>
      if handler(p.job).Pass? then Handled
      else
        match FailureDisposition(p.retry, maxRetries, baseMs)
        case Requeue(r, delay) => Requeued(codec.encode(RedisPayload(p.job, r)), delay)
        case DeadLetter(r) => DeadLettered(codec.encode(RedisPayload(p.job, r)))
  }

  /** The Redis side: the ingestion list, the dead-letter list, and the
      requeues waiting on a timer. Jobs are pushed with RPUSH and taken
      with BRPOP, both at the tail. */
  class RedisQueue {
    const maxRetries: int
    const backoffMs: int
    const codec: RedisCodec
    var list: seq<string>
    var dlq: seq<string>
    /** Payloads time.AfterFunc will push back, with their delays. */
    var timers: seq<(string, int)>

    constructor (maxRetries: int, backoffMs: int, codec: RedisCodec)
      ensures this.maxRetries == maxRetries && this.backoffMs == backoffMs && this.codec == codec
      ensures list == [] && dlq == [] && timers == []
    {
      this.maxRetries := maxRetries;
      this.backoffMs := backoffMs;
      this.codec := codec;
      list := [];
      dlq := [];
      timers := [];
    }

    /** Enqueue: the job wrapped with retry 0, at the tail. */
    method Enqueue(job: IngestionJob)
      modifies this`list
      ensures list == old(list) + [codec.encode(RedisPayload(job, 0))]
    {
      list := list + [codec.encode(RedisPayload(job, 0))];
    }

    /** One turn of consume: an empty list is a BRPOP timeout; otherwise the
        payload at the tail is taken and its effect applied: a requeue with
        no delay goes straight back to the tail, one with a delay waits on a
        timer, and a dead letter goes to the dead-letter list. */
    method ConsumeOne(handler: IngestionJob -> Outcome) returns (taken: Option<string>, effect: Option<RedisEffect>)
      modifies this`list, this`dlq, this`timers
      ensures old(list) == [] ==> taken.None? && effect.None? && list == [] && dlq == old(dlq) && timers == old(timers)
      ensures old(list) != [] ==>
        var raw := old(list)[|old(list)| - 1];
        var e := RedisDelivery(raw, codec, handler, maxRetries, backoffMs);
        var rest := old(list)[..|old(list)| - 1];
        taken == Some(raw) && effect == Some(e) &&
        list == (if e.Requeued? && e.delayMs <= 0 then rest + [e.payload] else rest) &&
        timers == (if e.Requeued? && e.delayMs > 0 then old(timers) + [(e.payload, e.delayMs)] else old(timers)) &&
        dlq == (if e.DeadLettered? then old(dlq) + [e.payload] else old(dlq))
    {
      if |list| == 0 {
        return None, None;
      }
      var raw := list[|list| - 1];
      list := list[..|list| - 1];
      var e := RedisDelivery(raw, codec, handler, maxRetries, backoffMs);
      taken, effect := Some(raw), Some(e);
      match e
      case Requeued(payload, delay) =>
        if delay <= 0 {
          list := list + [payload];
        } else {
          timers := timers + [(payload, delay)];
        }
      case DeadLettered(payload) =>
        dlq := dlq + [payload];
      case _ =>
    }

    /** A timer firing: its payload is pushed back at the tail. */
    method FireTimer(i: nat)
      requires i < |timers|
      modifies this`list, this`timers
      ensures list == old(list) + [old(timers)[i].0]
      ensures timers == old(timers)[..i] + old(timers)[i + 1..]
    {
      list := list + [timers[i].0];
      timers := timers[..i] + timers[i + 1..];
    }
  }

  /** RPUSH and BRPOP work on the same end: a job enqueued while others
      wait is the next one consumed. */
  method EnqueueThenConsume(q: RedisQueue, job: IngestionJob, handler: IngestionJob -> Outcome)
    returns (taken: Option<string>)
    modifies q`list, q`dlq, q`timers
    ensures taken == Some(q.codec.encode(RedisPayload(job, 0)))
  {
    q.Enqueue(job);
    var effect;
    taken, effect := q.ConsumeOne(handler);
  }

  // ------------------------------------------------------------ settings

  /** The `knowledge.ingestion` block of the data config. */
  datatype IngestionSettings = IngestionSettings(maxRetries: int, backoffBaseMs: int, workerConcurrency: int)

  datatype RuntimeConfig = RuntimeConfig(maxRetries: int, backoffMs: int, workers: int)

  /** One setting before the clamps: the default, replaced by a positive
      configured value, replaced in turn by an environment value that
      parses as an integer. */
  function Configured(default: int, configured: Option<int>, env: string): (v: int)
    ensures ParseInt(TrimSpace(env)).Some? ==> v == ParseInt(TrimSpace(env)).value
    ensures ParseInt(TrimSpace(env)).None? && configured.Some? && configured.value > 0 ==> v == configured.value
    ensures ParseInt(TrimSpace(env)).None? && !(configured.Some? && configured.value > 0) ==> v == default
  {
    var base := if configured.Some? && configured.value > 0 then configured.value else default;
    var env := TrimSpace(env);
    if env != "" && ParseInt(env).Some? then ParseInt(env).value else base
  }

  /** resolveIngestionRuntimeConfig: the configured or environment values,
      then the clamps: a negative retry limit becomes 3 and one above 10
      becomes 10, a negative backoff becomes 500 ms, and the worker count
      is brought into 1..32. */
  method ResolveRuntimeConfig(settings: Option<IngestionSettings>, envRetries: string, envBackoffMs: string, envWorkers: string)
    returns (c: RuntimeConfig)
    ensures 0 <= c.maxRetries <= MaxRetriesCap && c.backoffMs >= 0 && 1 <= c.workers <= MaxWorkers
    ensures var raw := Configured(DefaultMaxRetries, if settings.Some? then Some(settings.value.maxRetries) else None, envRetries);
      (raw < 0 ==> c.maxRetries == DefaultMaxRetries) && (0 <= raw <= MaxRetriesCap ==> c.maxRetries == raw) &&
      (raw > MaxRetriesCap ==> c.maxRetries == MaxRetriesCap)
    ensures var raw := Configured(DefaultBackoffBaseMs, if settings.Some? then Some(settings.value.backoffBaseMs) else None, envBackoffMs);
      (raw < 0 ==> c.backoffMs == DefaultBackoffBaseMs) && (raw >= 0 ==> c.backoffMs == raw)
    ensures var raw := Configured(DefaultWorkerCount, if settings.Some? then Some(settings.value.workerConcurrency) else None, envWorkers);
      (raw <= 0 ==> c.workers == DefaultWorkerCount) && (1 <= raw <= MaxWorkers ==> c.workers == raw) &&
      (raw > MaxWorkers ==> c.workers == MaxWorkers)
  {
    var maxRetries := Configured(DefaultMaxRetries, if settings.Some? then Some(settings.value.maxRetries) else None, envRetries);
    var backoff := Configured(DefaultBackoffBaseMs, if settings.Some? then Some(settings.value.backoffBaseMs) else None, envBackoffMs);
    var workers := Configured(DefaultWorkerCount, if settings.Some? then Some(settings.value.workerConcurrency) else None, envWorkers);
    if maxRetries < 0 {
      maxRetries := DefaultMaxRetries;
    }
    if maxRetries > MaxRetriesCap {
      maxRetries := MaxRetriesCap;
    }
    if backoff < 0 {
      backoff := DefaultBackoffBaseMs;
    }
    if workers <= 0 {
      workers := DefaultWorkerCount;
    }
    if workers > MaxWorkers {
      workers := MaxWorkers;
    }
    c := RuntimeConfig(maxRetries, backoff, workers);
  }

  /** Which queue NewIngestionQueue returns. */
  datatype QueueKind = NoQueue | Rabbit | Redis

  /** NewIngestionQueue: no config, no queue; RabbitMQ when an address is
      set and the connection, the channel and the three queue declarations
      succeed; otherwise Redis when an address is set and it answers a
      ping; otherwise none. */
  function SelectQueue(configured: bool, rabbitAddr: string, rabbitUp: bool, redisAddr: string, redisUp: bool): (k: QueueKind)
    ensures k == Rabbit <==> configured && rabbitAddr != "" && rabbitUp
    ensures k == Redis <==> configured && !(rabbitAddr != "" && rabbitUp) && redisAddr != "" && redisUp
  {
    if !configured then NoQueue
    else if rabbitAddr != "" && rabbitUp then Rabbit
    else if redisAddr != "" && redisUp then Redis
    else NoQueue
  }
}
