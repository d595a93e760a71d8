/**
 * What server-b keeps in Redis: one hash per application and one score-ordered set of the
 * applications that still need an outcome. Every command is one function; the store's operations
 * are sequences of commands, and other work may run between any two of them.
 */
module Redis {
  import opened Payloads
  import opened CouponDb

  datatype PendingStatus = PENDING | SUCCESS | SOLD_OUT | FAILED

  /** The fields of a pending hash; a field that is not set is None. */
  datatype Hash = Hash(
    userId: Option<int>,
    requestId: Option<string>,
    eventId: Option<int>,
    couponTypeId: Option<int>,
    status: Option<PendingStatus>,
    createdAt: Option<int>,
    attempts: Option<int>,
    lastPublishedAt: Option<int>,
    code: Option<string>)

  datatype Redis = Redis(hashes: map<Key, Hash>, zset: map<Key, int>)

  /** What findPendingOlderThan hands to the scheduler. */
  datatype PendingIssue = PendingIssue(
    key: Key,
    requestId: string,
    eventId: int,
    status: PendingStatus,
    createdAt: int,
    attempts: int)

  const NO_FIELDS := Hash(None, None, None, None, None, None, None, None, None)

  function HashOf(r: Redis, k: Key): Hash {
    if k in r.hashes then r.hashes[k] else NO_FIELDS
  }

  // ---------------------------------------------------------------- commands

  /** HSETNX userId: true when this call set it. */
  predicate Claims(r: Redis, k: Key) {
    HashOf(r, k).userId.None?
  }

  function HsetnxUserId(r: Redis, k: Key): Redis {
    if Claims(r, k) then r.(hashes := r.hashes[k := HashOf(r, k).(userId := Some(k.userId))]) else r
  }

  /** The HSET of a new application. */
  function HsetPending(r: Redis, k: Key, requestId: string, eventId: int, createdAt: int): Redis {
    r.(hashes := r.hashes[k := HashOf(r, k).(
         userId := Some(k.userId), requestId := Some(requestId), eventId := Some(eventId),
         couponTypeId := Some(k.couponTypeId), status := Some(PENDING), createdAt := Some(createdAt),
         attempts := Some(1), lastPublishedAt := Some(createdAt))])
  }

  function Zadd(r: Redis, k: Key, score: int): Redis {
    r.(zset := r.zset[k := score])
  }

  function Zrem(r: Redis, k: Key): Redis {
    r.(zset := map j | j in r.zset && j != k :: r.zset[j])
  }

  function HincrAttempts(r: Redis, k: Key): Redis {
    var h := HashOf(r, k);
    r.(hashes := r.hashes[k := h.(attempts := Some(if h.attempts.Some? then h.attempts.value + 1 else 1))])
  }

  function HsetLastPublished(r: Redis, k: Key, at: int): Redis {
    r.(hashes := r.hashes[k := HashOf(r, k).(lastPublishedAt := Some(at))])
  }

  function HsetStatus(r: Redis, k: Key, status: PendingStatus): Redis {
    r.(hashes := r.hashes[k := HashOf(r, k).(status := Some(status))])
  }

  function HsetCode(r: Redis, k: Key, code: string): Redis {
    r.(hashes := r.hashes[k := HashOf(r, k).(code := Some(code))])
  }

  /** HGETALL and the checks after it; None when the entry is skipped in this cycle. */
  function ReadPending(k: Key, h: Hash): Option<PendingIssue> {
    if h.requestId.None? || h.eventId.None? || h.status.None? || h.createdAt.None? then None
    else Some(PendingIssue(k, h.requestId.value, h.eventId.value, h.status.value, h.createdAt.value,
                           if h.attempts.Some? then h.attempts.value else 1))
  }

  // ---------------------------------------------------------------- payloads and statuses

  /** The message accept sends first. */
  function FirstPayload(k: Key, requestId: string, eventId: int, now: int): RequestPayload {
    RequestPayload(Some(requestId), k.userId, eventId, k.couponTypeId, Some(now))
  }

  /** The message the scheduler rebuilds from what it read. */
  function RebuiltPayload(p: PendingIssue): RequestPayload {
    RequestPayload(Some(p.requestId), p.key.userId, p.eventId, p.key.couponTypeId, Some(p.createdAt))
  }

  /** The scheduler's mapping of a row's status. */
  function MapRowStatus(s: CouponStatus): PendingStatus {
    match s
    case Success => SUCCESS
    case SoldOut => SOLD_OUT
    case Used => SUCCESS
    case Failed => FAILED
  }

  /** The result consumer's mapping of a wire status; an unknown one never gets past the check. */
  function MapResultStatus(s: ResultStatus): PendingStatus {
    match s
    case ResultSuccess => SUCCESS
    case ResultSoldOut => SOLD_OUT
    case ResultFailed => FAILED
    case ResultUnknown(_) => FAILED
  }

  /** An outcome has been written. */
  predicate Terminal(h: Hash) {
    h.status.Some? && h.status.value != PENDING
  }

  /** Every field a new application gets is there. */
  predicate Complete(k: Key, h: Hash) {
    && h.userId == Some(k.userId) && h.couponTypeId == Some(k.couponTypeId)
    && h.requestId.Some? && h.eventId.Some? && h.status.Some? && h.createdAt.Some?
    && h.attempts.Some? && h.lastPublishedAt.Some?
  }

  predicate Filled(r: Redis, k: Key) {
    k in r.hashes && Complete(k, r.hashes[k])
  }
}
