/**
 * server-b, server-c and the two topics between them as one step machine.
 *
 * Each awaited Redis command of accept, of the result consumer and of the recovery scheduler is a
 * step of its own, so the three race on the same key exactly as they do in one event loop; any of
 * them may be cut off after any command. server-c contributes its own steps. It may take a request
 * any number of times. The result consumer takes a record once and commits it after its markResult;
 * only a record that is not committed can come again. Records are taken in any order, which covers
 * every way to spread them over partitions. A send that failed for its caller may still reach the
 * topic, then or later.
 */
module System {
  import opened Payloads
  import opened CouponDb
  import opened Redis
  import opened Basics
  import C = ServerC

  datatype AcceptPc = Filling | Enlisting | Publishing

  datatype Accept = Accept(key: Key, requestId: string, eventId: int, now: int, pc: AcceptPc)

  datatype MarkPc = SettingStatus | SettingCode | Removing

  /** A markResult under way. */
  datatype Mark = Mark(key: Key, status: PendingStatus, code: Option<string>, pc: MarkPc)

  datatype RepublishPc = Counting | Stamping | Rescoring | Resending

  /** The one recovery scheduler: queue holds what it has read and not yet handled in this sweep. */
  datatype Scheduler =
    | Resting
    | Fetching(todo: seq<Key>, got: seq<PendingIssue>)
    | Working(queue: seq<PendingIssue>)
    | Marking(mark: Mark, givingUp: bool, queue: seq<PendingIssue>)
    | Republishing(p: PendingIssue, at: int, pc: RepublishPc, queue: seq<PendingIssue>)

  /**
   * marks are the markResults under way, by the offset of their record; resolved records are done
   * with, and committed ones for good. enlisted, accepted and givenUp are history: keys that got
   * their ZADD, their ACCEPTED, a give-up.
   */
  datatype State = State(
    c: C.State,
    max: int,
    redis: Redis,
    accepts: map<nat, Accept>,
    marks: map<nat, Mark>,
    resolved: set<nat>,
    committed: set<nat>,
    sched: Scheduler,
    requests: seq<RequestPayload>,
    sending: set<RequestPayload>,
    enlisted: set<Key>,
    accepted: set<Key>,
    givenUp: set<Key>)

  datatype AcceptStep =
    | Claim(key: Key, requestId: string, eventId: int, now: int)
    | Fill
    | Enlist
    | Publish(ok: bool)
    | AcceptFails

  /**
   * A try that throws is repeated, the last one passes the record over. TakenBack: the process dies
   * or loses the partition before the commit, and the record comes again.
   */
  datatype MarkStep =
    | Deliver
    | MarkNext
    | MarkRetry
    | MarkFails
    | Commit
    | TakenBack

  datatype SchedStep =
    | Sweep(members: seq<Key>)
    | FetchOne
    | Visit(row: Option<nat>, now: int)
    | SchedMarkNext
    | RepublishNext(ok: bool)
    | ItemFails
    | SchedCrashes

  datatype Step =
    | Server(step: C.Step)
    | Accepting(id: nat, accept: AcceptStep)
    | Consuming(offset: nat, mark: MarkStep)
    | Recovering(sched: SchedStep)
    | LateSend(m: RequestPayload)

  ghost predicate Init(s: State) {
    && C.Init(s.c) && s.max >= 1
    && s.redis == Redis(map[], map[]) && s.accepts == map[] && s.marks == map[] && s.resolved == {} && s.committed == {}
    && s.sched == Resting
    && s.requests == [] && s.sending == {} && s.enlisted == {} && s.accepted == {} && s.givenUp == {}
  }

  // ---------------------------------------------------------------- accept

  predicate CanAccept(s: State, id: nat, step: AcceptStep) {
    match step
    case Claim(_, _, _, _) => id !in s.accepts
    case Fill => id in s.accepts && s.accepts[id].pc.Filling?
    case Enlist => id in s.accepts && s.accepts[id].pc.Enlisting?
    case Publish(ok) =>
      id in s.accepts && s.accepts[id].pc.Publishing? && (ok ==> ValidRequest(AcceptPayload(s.accepts[id])))
    case AcceptFails => id in s.accepts
  }

  function AcceptPayload(a: Accept): RequestPayload {
    FirstPayload(a.key, a.requestId, a.eventId, a.now)
  }

  /** The publisher: an invalid payload is never sent; a failed send may still be on its way. */
  function Published(s: State, m: RequestPayload, ok: bool): State {
    if ok then s.(requests := s.requests + [m])
    else if ValidRequest(m) then s.(sending := s.sending + {m})
    else s
  }

  function AcceptNext(s: State, id: nat, step: AcceptStep): State
    requires CanAccept(s, id, step)
  {
    match step
    case Claim(k, requestId, eventId, now) =>
      if Claims(s.redis, k)
      then s.(redis := HsetnxUserId(s.redis, k), accepts := s.accepts[id := Accept(k, requestId, eventId, now, Filling)])
      else s
    case Fill =>
      var a := s.accepts[id];
      s.(redis := HsetPending(s.redis, a.key, a.requestId, a.eventId, a.now),
         accepts := s.accepts[id := a.(pc := Enlisting)])
    case Enlist =>
      var a := s.accepts[id];
      s.(redis := Zadd(s.redis, a.key, a.now), enlisted := s.enlisted + {a.key},
         accepts := s.accepts[id := a.(pc := Publishing)])
    case Publish(ok) =>
      var a := s.accepts[id];
      Published(s, AcceptPayload(a), ok).(accepts := C.Without(s.accepts, id), accepted := s.accepted + {a.key})
    case AcceptFails => s.(accepts := C.Without(s.accepts, id))
  }

  // ---------------------------------------------------------------- markResult and its two users

  /** The next command of a markResult; None when it was the last. */
  function MarkAfter(m: Mark): Option<Mark> {
    match m.pc
    case SettingStatus => Some(m.(pc := if m.code.Some? then SettingCode else Removing))
    case SettingCode => Some(m.(pc := Removing))
    case Removing => None
  }

  function MarkCommand(r: Redis, m: Mark): Redis {
    match m.pc
    case SettingStatus => HsetStatus(r, m.key, m.status)
    case SettingCode => if m.code.Some? then HsetCode(r, m.key, m.code.value) else r
    case Removing => Zrem(r, m.key)
  }

  /** What the result consumer makes of a message that passed its check. */
  function MarkOf(m: ResultPayload): Mark
    requires ValidResult(m)
  {
    Mark(ResultKey(m), MapResultStatus(m.status.value), m.couponCode, SettingStatus)
  }

  predicate CanMark(s: State, j: nat, step: MarkStep) {
    match step
    case Deliver => j !in s.marks && j !in s.resolved && j < |s.c.topic| && ValidResult(s.c.topic[j])
    case MarkNext => j in s.marks
    case MarkRetry => j in s.marks
    case MarkFails => j in s.marks
    case Commit => j in s.resolved
    case TakenBack => j !in s.committed
  }

  function MarkingNext(s: State, j: nat, step: MarkStep): State
    requires CanMark(s, j, step)
  {
    match step
    case Deliver => s.(marks := s.marks[j := MarkOf(s.c.topic[j])])
    case MarkNext =>
      var m := s.marks[j];
      s.(redis := MarkCommand(s.redis, m),
         marks := if MarkAfter(m).Some? then s.marks[j := MarkAfter(m).value] else C.Without(s.marks, j),
         resolved := if MarkAfter(m).Some? then s.resolved else s.resolved + {j})
    case MarkRetry => s.(marks := s.marks[j := s.marks[j].(pc := SettingStatus)])
    case MarkFails => s.(marks := C.Without(s.marks, j), resolved := s.resolved + {j})
    case Commit => s.(committed := s.committed + {j})
    case TakenBack => s.(marks := C.Without(s.marks, j), resolved := s.resolved - {j})
  }

  // ---------------------------------------------------------------- the scheduler

  predicate CanSchedule(s: State, step: SchedStep) {
    match step
    case Sweep(members) => s.sched.Resting? && Distinct(members) && forall k | k in members :: k in s.redis.zset
    case FetchOne => s.sched.Fetching?
    case Visit(row, _) =>
      && s.sched.Working? && s.sched.queue != []
      && var k := s.sched.queue[0].key;
         if row.Some? then row.value < |s.c.db.coupons| && CouponKey(s.c.db.coupons[row.value]) == k
         else !HasKey(s.c.db.coupons, k)
    case SchedMarkNext => s.sched.Marking?
    case RepublishNext(ok) => s.sched.Republishing? && (ok ==> ValidRequest(RebuiltPayload(s.sched.p)))
    case ItemFails => s.sched.Marking? || s.sched.Republishing? || (s.sched.Working? && s.sched.queue != [])
    case SchedCrashes => true
  }

  /** Entries still to be handled after the current one; an empty queue ends the sweep. */
  function Back(queue: seq<PendingIssue>): Scheduler {
    if queue == [] then Resting else Working(queue)
  }

  /** The three branches for one entry: c knows it, another try is left, or give up. */
  function Decided(max: int, p: PendingIssue, row: Option<Coupon>, now: int, rest: seq<PendingIssue>): Scheduler {
    if row.Some? then Marking(Mark(p.key, MapRowStatus(row.value.status), Some(row.value.code), SettingStatus), false, rest)
    else if p.attempts < max then Republishing(p, now, Counting, rest)
    else Marking(Mark(p.key, FAILED, None, SettingStatus), true, rest)
  }

  function FetchNext(s: State): State
    requires s.sched.Fetching?
  {
    var todo, got := s.sched.todo, s.sched.got;
    if todo == [] then s.(sched := Back(got))
    else if todo[0] !in s.redis.hashes then s.(redis := Zrem(s.redis, todo[0]), sched := Fetching(todo[1..], got))
    else
      var p := ReadPending(todo[0], s.redis.hashes[todo[0]]);
      s.(sched := Fetching(todo[1..], if p.Some? then got + [p.value] else got))
  }

  function RepublishStep(s: State, ok: bool): State
    requires s.sched.Republishing?
  {
    var k := s.sched.p.key;
    match s.sched.pc
    case Counting => s.(redis := HincrAttempts(s.redis, k), sched := s.sched.(pc := Stamping))
    case Stamping => s.(redis := HsetLastPublished(s.redis, k, s.sched.at), sched := s.sched.(pc := Rescoring))
    case Rescoring => s.(redis := Zadd(s.redis, k, s.sched.at), sched := s.sched.(pc := Resending))
    case Resending => Published(s, RebuiltPayload(s.sched.p), ok).(sched := Back(s.sched.queue))
  }

  function SchedNext(s: State, step: SchedStep): State
    requires CanSchedule(s, step)
  {
    match step
    case Sweep(members) => s.(sched := Fetching(members, []))
    case FetchOne => FetchNext(s)
    case Visit(row, now) =>
      var coupon := if row.Some? then Some(s.c.db.coupons[row.value]) else None;
      s.(sched := Decided(s.max, s.sched.queue[0], coupon, now, s.sched.queue[1..]))
    case SchedMarkNext =>
      var m := s.sched.mark;
      s.(redis := MarkCommand(s.redis, m),
         givenUp := if s.sched.givingUp then s.givenUp + {m.key} else s.givenUp,
         sched := if MarkAfter(m).Some? then s.sched.(mark := MarkAfter(m).value) else Back(s.sched.queue))
    case RepublishNext(ok) => RepublishStep(s, ok)
    case ItemFails => s.(sched := Back(if s.sched.Working? then s.sched.queue[1..] else s.sched.queue))
    case SchedCrashes => s.(sched := Resting)
  }

  // ---------------------------------------------------------------- the whole

  predicate Enabled(s: State, step: Step) {
    match step
    case Server(st) => C.Enabled(s.c, st) && (st.Issuing? && st.issue.Begin? ==> st.issue.a.req in s.requests)
    case Accepting(id, st) => CanAccept(s, id, st)
    case Consuming(id, st) => CanMark(s, id, st)
    case Recovering(st) => CanSchedule(s, st)
    case LateSend(m) => m in s.sending
  }

  function Apply(s: State, step: Step): State
    requires Enabled(s, step)
  {
    match step
    case Server(st) => s.(c := C.Apply(s.c, st))
    case Accepting(id, st) => AcceptNext(s, id, st)
    case Consuming(id, st) => MarkingNext(s, id, st)
    case Recovering(st) => SchedNext(s, st)
    case LateSend(m) => s.(requests := s.requests + [m])
  }

  ghost predicate Runs(s: State, steps: seq<Step>)
    decreases steps
  {
    steps == [] || (Enabled(s, steps[0]) && Runs(Apply(s, steps[0]), steps[1..]))
  }

  ghost function After(s: State, steps: seq<Step>): State
    requires Runs(s, steps)
    decreases steps
  {
    if steps == [] then s else After(Apply(s, steps[0]), steps[1..])
  }

  // ---------------------------------------------------------------- invariants

  /** server-c has a row for the key whose status maps to this one. */
  predicate RowMaps(cs: seq<Coupon>, k: Key, status: PendingStatus) {
    exists i | 0 <= i < |cs| :: CouponKey(cs[i]) == k && MapRowStatus(cs[i].status) == status
  }

  predicate RowHasCode(cs: seq<Coupon>, k: Key, code: string) {
    exists i | 0 <= i < |cs| :: CouponKey(cs[i]) == k && cs[i].code == code
  }

  /** The recovery scheduler can find the application, or its outcome is already written. */
  predicate Tracked(r: Redis, k: Key) {
    k in r.zset || (k in r.hashes && Terminal(r.hashes[k]))
  }

  /** An outcome is server-c's, or it is a give-up after the last attempt. */
  ghost predicate StatusOk(cs: seq<Coupon>, max: int, givenUp: set<Key>, k: Key, h: Hash) {
    && (Terminal(h) ==>
          || RowMaps(cs, k, h.status.value)
          || (h.status == Some(FAILED) && k in givenUp && h.attempts.Some? && h.attempts.value >= max))
    && (h.code.Some? ==> RowHasCode(cs, k, h.code.value))
  }

  ghost predicate HashesOk(cs: seq<Coupon>, max: int, givenUp: set<Key>, r: Redis) {
    forall k | k in r.hashes ::
      && r.hashes[k].userId == Some(k.userId)
      && StatusOk(cs, max, givenUp, k, r.hashes[k])
      && (r.hashes[k].attempts.Some? ==> 1 <= r.hashes[k].attempts.value <= max)
  }

  /** Enlisted keys are complete and tracked; nothing else is in the set or has an outcome. */
  ghost predicate EnlistedOk(r: Redis, enlisted: set<Key>) {
    && (forall k | k in enlisted :: Filled(r, k) && Tracked(r, k))
    && (forall k | k in r.zset :: k in enlisted)
    && (forall k | k in r.hashes && k !in enlisted :: !Terminal(r.hashes[k]))
  }

  predicate MatchesHash(h: Hash, requestId: string, eventId: int, createdAt: int) {
    h.requestId == Some(requestId) && h.eventId == Some(eventId) && h.createdAt == Some(createdAt)
  }

  ghost predicate AcceptOk(r: Redis, enlisted: set<Key>, a: Accept) {
    && a.key in r.hashes
    && (a.pc.Filling? ==> a.key !in enlisted && r.hashes[a.key] == NO_FIELDS.(userId := Some(a.key.userId)))
    && (a.pc.Enlisting? ==> a.key !in enlisted)
    && (a.pc.Publishing? ==> a.key in enlisted)
    && (!a.pc.Filling? ==> Filled(r, a.key) && MatchesHash(r.hashes[a.key], a.requestId, a.eventId, a.now))
  }

  ghost predicate AcceptsOk(r: Redis, enlisted: set<Key>, accepts: map<nat, Accept>) {
    && (forall i | i in accepts :: AcceptOk(r, enlisted, accepts[i]))
    && forall i, j | i in accepts && j in accepts && i != j :: accepts[i].key != accepts[j].key
  }

  /** A message is the one message of its application. */
  ghost predicate MessageOk(r: Redis, enlisted: set<Key>, m: RequestPayload) {
    && RequestKey(m) in enlisted && ValidRequest(m)
    && Filled(r, RequestKey(m))
    && m == FirstPayload(RequestKey(m), r.hashes[RequestKey(m)].requestId.value,
                         r.hashes[RequestKey(m)].eventId.value, r.hashes[RequestKey(m)].createdAt.value)
  }

  ghost predicate MessagesOk(r: Redis, enlisted: set<Key>, requests: seq<RequestPayload>, sending: set<RequestPayload>) {
    && (forall m | m in requests :: MessageOk(r, enlisted, m))
    && forall m | m in sending :: MessageOk(r, enlisted, m)
  }

  function Asked(requests: seq<RequestPayload>): set<Key> {
    set m | m in requests :: RequestKey(m)
  }

  /** Whatever server-c works on, or has a row for, came over the topic. */
  ghost predicate OriginOk(c: C.State, requests: seq<RequestPayload>) {
    && (forall i | i in c.txs :: c.txs[i].a.req in requests)
    && forall i | 0 <= i < |c.db.coupons| :: CouponKey(c.db.coupons[i]) in Asked(requests)
  }

  /** A markResult under way carries what server-c's row says. */
  ghost predicate CarriesRow(cs: seq<Coupon>, m: Mark) {
    && RowMaps(cs, m.key, m.status) && m.status != PENDING
    && (m.code.Some? ==> RowHasCode(cs, m.key, m.code.value))
  }

  ghost predicate MarkOk(r: Redis, enlisted: set<Key>, m: Mark) {
    && m.key in enlisted && m.status != PENDING
    && Filled(r, m.key) && (!m.pc.SettingStatus? ==> Terminal(r.hashes[m.key]))
  }

  ghost predicate MarksOk(cs: seq<Coupon>, r: Redis, enlisted: set<Key>, marks: map<nat, Mark>) {
    forall i | i in marks :: MarkOk(r, enlisted, marks[i]) && CarriesRow(cs, marks[i])
  }

  /** What the scheduler read is still what the hash says; only the scheduler itself counts attempts. */
  ghost predicate ItemOk(r: Redis, enlisted: set<Key>, p: PendingIssue) {
    && p.key in enlisted && Filled(r, p.key)
    && MatchesHash(r.hashes[p.key], p.requestId, p.eventId, p.createdAt)
    && r.hashes[p.key].attempts == Some(p.attempts)
  }

  ghost predicate QueueOk(r: Redis, enlisted: set<Key>, queue: seq<PendingIssue>) {
    && (forall i | 0 <= i < |queue| :: ItemOk(r, enlisted, queue[i]))
    && forall i, j | 0 <= i < j < |queue| :: queue[i].key != queue[j].key
  }

  ghost predicate NotQueued(queue: seq<PendingIssue>, k: Key) {
    forall i | 0 <= i < |queue| :: queue[i].key != k
  }

  ghost predicate SchedOk(cs: seq<Coupon>, max: int, r: Redis, enlisted: set<Key>, sched: Scheduler) {
    match sched
    case Resting => true
    case Fetching(todo, got) =>
      && QueueOk(r, enlisted, got) && Distinct(todo)
      && (forall i | 0 <= i < |todo| :: todo[i] in enlisted && NotQueued(got, todo[i]))
    case Working(queue) => queue != [] && QueueOk(r, enlisted, queue)
    case Marking(m, givingUp, queue) =>
      && QueueOk(r, enlisted, queue) && MarkOk(r, enlisted, m)
      && (if givingUp then m.status == FAILED && m.code.None? && r.hashes[m.key].attempts.value >= max
          else CarriesRow(cs, m))
    case Republishing(p, _, pc, queue) =>
      && QueueOk(r, enlisted, queue) && NotQueued(queue, p.key)
      && p.key in enlisted && Filled(r, p.key)
      && MatchesHash(r.hashes[p.key], p.requestId, p.eventId, p.createdAt)
      && (pc.Counting? ==> r.hashes[p.key].attempts == Some(p.attempts) && p.attempts < max)
  }

  ghost predicate Inv(s: State) {
    && s.max >= 1
    && C.Inv(s.c)
    && HashesOk(s.c.db.coupons, s.max, s.givenUp, s.redis)
    && EnlistedOk(s.redis, s.enlisted)
    && AcceptsOk(s.redis, s.enlisted, s.accepts)
    && MessagesOk(s.redis, s.enlisted, s.requests, s.sending)
    && OriginOk(s.c, s.requests)
    && MarksOk(s.c.db.coupons, s.redis, s.enlisted, s.marks)
    && SchedOk(s.c.db.coupons, s.max, s.redis, s.enlisted, s.sched)
    && s.accepted <= s.enlisted
  }
}
