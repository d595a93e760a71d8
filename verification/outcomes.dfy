/**
 * Whether an application that server-c has a row for still gets the row's outcome in Redis. A
 * give-up writes FAILED without looking; whether that is repaired depends on what is still to come:
 * a visit that finds the row, a send of its result, or a record of it not yet consumed.
 */
module Outcomes {
  import opened Basics
  import opened Payloads
  import opened CouponDb
  import opened Redis
  import opened System
  import opened SystemProofs
  import opened ResultOffsets
  import opened Calm
  import opened RunFairness
  import C = ServerC
  import CT = ServerCTheorems

  /** Redis shows the outcome of this row. */
  predicate Right(r: Redis, c: Coupon) {
    HashOf(r, CouponKey(c)).status == Some(MapRowStatus(c.status))
  }

  /** The scheduler decided to give up before there was a row, and writes that next. */
  predicate GivingUpSoon(sched: Scheduler, k: Key) {
    sched.Marking? && sched.givingUp && sched.mark.key == k && sched.mark.pc.SettingStatus?
  }

  /** What Redis shows once a give-up that is under way is written. */
  predicate Standing(r: Redis, sched: Scheduler, c: Coupon) {
    if GivingUpSoon(sched, CouponKey(c)) then c.status.Failed? else Right(r, c)
  }

  /** This sweep will still visit the application, write the row's status, or score it again. */
  ghost predicate InTurn(sched: Scheduler, k: Key) {
    match sched
    case Resting => false
    case Fetching(todo, got) => k in todo || !NotQueued(got, k)
    case Working(queue) => !NotQueued(queue, k)
    case Marking(m, givingUp, queue) => (m.key == k && !givingUp && m.pc.SettingStatus?) || !NotQueued(queue, k)
    case Republishing(p, _, pc, queue) => (p.key == k && !pc.Resending?) || !NotQueued(queue, k)
  }

  /** A visit that finds the row is to come. */
  ghost predicate VisitDue(zset: map<Key, int>, sched: Scheduler, k: Key) {
    InTurn(sched, k) || (k in zset && !(sched.Marking? && sched.mark.key == k))
  }

  predicate Taken(p: C.Poller, i: nat) {
    p.Polling? && i in p.sent
  }

  /** The row's result is in the batch of the poll under way, or a later poll will read it. */
  predicate SendDue(c: C.State, i: nat) {
    || (c.poller.Polling? && i in c.poller.todo)
    || (i < |c.db.outbox| && !c.db.outbox[i].published && !Taken(c.poller, i))
  }

  /** This record is one of the key, and its status write is still to come. */
  predicate DueAt(topic: seq<ResultPayload>, marks: map<nat, Mark>, resolved: set<nat>, k: Key, j: nat) {
    && j < |topic| && ResultKey(topic[j]) == k && j !in resolved
    && (j in marks ==> marks[j].pc.SettingStatus?)
  }

  ghost predicate RecordDue(topic: seq<ResultPayload>, marks: map<nat, Mark>, resolved: set<nat>, k: Key) {
    exists j :: DueAt(topic, marks, resolved, k, j)
  }

  ghost predicate ToldLater(s: State, i: nat)
    requires i < |s.c.db.coupons|
  {
    var k := CouponKey(s.c.db.coupons[i]);
    SendDue(s.c, i) || RecordDue(s.c.topic, s.marks, s.resolved, k)
  }

  ghost predicate CanBeTold(s: State, i: nat)
    requires i < |s.c.db.coupons|
  {
    var c := s.c.db.coupons[i];
    Standing(s.redis, s.sched, c) || VisitDue(s.redis.zset, s.sched, CouponKey(c)) || ToldLater(s, i)
  }

  // ---------------------------------------------------------------- facts about one row

  lemma RowIsEnlisted(s: State, i: nat)
    requires Inv(s) && i < |s.c.db.coupons|
    ensures CouponKey(s.c.db.coupons[i]) in s.enlisted && Filled(s.redis, CouponKey(s.c.db.coupons[i]))
  {
    assert CouponKey(s.c.db.coupons[i]) in Asked(s.requests);
    AskedIsEnlisted(s.redis, s.enlisted, s.requests, s.sending, CouponKey(s.c.db.coupons[i]));
  }

  /** Rows and results stand side by side, one row a key. */
  lemma RowFacts(c: C.State, i: nat)
    requires C.Inv(c) && i < |c.db.coupons|
    ensures i < |c.db.outbox| == |c.db.coupons|
    ensures Tells(c.db.outbox[i].payload, c.db.coupons[i])
    ensures forall n | 0 <= n < |c.db.coupons| && n != i :: CouponKey(c.db.coupons[n]) != CouponKey(c.db.coupons[i])
    ensures forall n | 0 <= n < |c.db.outbox| && n != i :: ResultKey(c.db.outbox[n].payload) != CouponKey(c.db.coupons[i])
  {
    assert TablesOk(c.db) && OnePerUser(c.db.coupons) && Chained(c.db);
    hide C.Inv;
    forall n | 0 <= n < |c.db.outbox| && n != i
      ensures ResultKey(c.db.outbox[n].payload) != CouponKey(c.db.coupons[i])
    {
      assert Tells(c.db.outbox[n].payload, c.db.coupons[n]);
    }
  }

  lemma RowStatusMaps(cs: seq<Coupon>, i: nat, status: PendingStatus)
    requires i < |cs| && OnePerUser(cs) && RowMaps(cs, CouponKey(cs[i]), status)
    ensures status == MapRowStatus(cs[i].status)
  {}

  /** A mark that carries the row's word writes the row's outcome. */
  lemma CarriedIsRight(s: State, m: Mark, i: nat)
    requires Inv(s) && i < |s.c.db.coupons| && CarriesRow(s.c.db.coupons, m) && m.key == CouponKey(s.c.db.coupons[i])
    ensures m.status == MapRowStatus(s.c.db.coupons[i].status)
  {
    assert OnePerUser(s.c.db.coupons);
    hide Inv;
    RowStatusMaps(s.c.db.coupons, i, m.status);
  }

  // ---------------------------------------------------------------- what a step does to one key

  /** Status and place in the set are what they were. */
  predicate SameFor(r: Redis, r': Redis, k: Key) {
    HashOf(r', k).status == HashOf(r, k).status && (k in r'.zset <==> k in r.zset)
  }

  lemma AcceptsLeaveKey(s: State, id: nat, step: AcceptStep, k: Key)
    requires CanAccept(s, id, step) && k in s.enlisted && AcceptsOk(s.redis, s.enlisted, s.accepts)
    ensures SameFor(s.redis, AcceptNext(s, id, step).redis, k) && AcceptNext(s, id, step).sched == s.sched
  {
    hide ValidRequest, Filled, MatchesHash;
  }

  /** What a command of a markResult does. */
  lemma MarkWrites(r: Redis, m: Mark, k: Key)
    ensures var r' := MarkCommand(r, m);
            && (m.key != k ==> SameFor(r, r', k))
            && (m.key == k ==>
                  && HashOf(r', k).status == (if m.pc.SettingStatus? then Some(m.status) else HashOf(r, k).status)
                  && (k in r'.zset <==> k in r.zset && !m.pc.Removing?))
  {}

  lemma ServerLeavesKey(s: State, step: C.Step)
    requires Enabled(s, Server(step))
    ensures Apply(s, Server(step)) == s.(c := C.Apply(s.c, step))
  {}

  /** A row stays where it is; using its coupon does not change its outcome. */
  lemma RowStays(c: C.State, step: C.Step, i: nat)
    requires C.Inv(c) && C.Enabled(c, step) && i < |c.db.coupons|
    ensures var cs, cs' := c.db.coupons, C.Apply(c, step).db.coupons;
            && i < |cs'| && CouponKey(cs'[i]) == CouponKey(cs[i])
            && MapRowStatus(cs'[i].status) == MapRowStatus(cs[i].status)
            && (cs'[i].status.Failed? <==> cs[i].status.Failed?)
  {
    CT.StepExtendsRows(c, step);
    hide C.Inv, C.Enabled, C.Apply;
  }

  // ---------------------------------------------------------------- server-c's steps

  /** One message more on the topic, not taken yet. */
  lemma RecordAppended(topic: seq<ResultPayload>, marks: map<nat, Mark>, resolved: set<nat>, k: Key, m: ResultPayload)
    requires |topic| !in marks && |topic| !in resolved
    ensures RecordDue(topic + [m], marks, resolved, k) <==> ResultKey(m) == k || RecordDue(topic, marks, resolved, k)
  {
    var topic' := topic + [m];
    if RecordDue(topic, marks, resolved, k) {
      var j :| DueAt(topic, marks, resolved, k, j);
      assert DueAt(topic', marks, resolved, k, j);
    }
    if ResultKey(m) == k { assert DueAt(topic', marks, resolved, k, |topic|); }
    if RecordDue(topic', marks, resolved, k) {
      var j :| DueAt(topic', marks, resolved, k, j);
      assert j == |topic| || DueAt(topic, marks, resolved, k, j);
    }
  }

  /** What a send does to the row's own result: it is then on the topic. */
  lemma SendMovesOn(c: C.State, i: nat)
    requires C.CanSend(c) && i < |c.db.outbox|
    ensures var c' := C.Send(c, C.Sent);
            && c'.topic == c.topic + [c.db.outbox[c.poller.todo[0]].payload]
            && (SendDue(c, i) <==> SendDue(c', i) || i == c.poller.todo[0])
  {
    var todo := c.poller.todo;
    assert i in todo <==> i == todo[0] || i in todo[1..];
  }

  lemma StartKeepsDue(c: C.State, ids: seq<nat>, i: nat)
    requires C.CanPoll(c, C.PollStart(ids)) && i < |c.db.outbox|
    ensures SendDue(C.PollNext(c, C.PollStart(ids)), i) <==> SendDue(c, i)
  {
    assert forall n | n in ids :: n < |c.db.outbox| && !c.db.outbox[n].published;
  }

  lemma MarkingKeepsSendDue(c: C.State, i: nat)
    requires C.CanPoll(c, C.PollMark) && i < |c.db.outbox|
    ensures SendDue(C.PollNext(c, C.PollMark), i) <==> SendDue(c, i)
  {}

  lemma NewRecordIsFree(s: State)
    requires OffsetsOk(s)
    ensures |s.c.topic| !in s.marks && |s.c.topic| !in s.resolved
  {}

  lemma RelayKeepsDue(s: State, step: C.PollStep, i: nat)
    requires Inv(s) && OffsetsOk(s) && i < |s.c.db.coupons| && C.CanPoll(s.c, step)
    requires !step.PollCrash? && (step.PollSend? ==> step.outcome.Sent?)
    ensures var c' := C.PollNext(s.c, step); var k := CouponKey(s.c.db.coupons[i]);
            SendDue(c', i) || RecordDue(c'.topic, s.marks, s.resolved, k) <==> ToldLater(s, i)
  {
    hide Inv, OffsetsOk, RecordDue, SendDue, Tells;
    InvHasServer(s);
    RowFacts(s.c, i);
    hide C.Inv;
    match step
    case PollStart(ids) => StartKeepsDue(s.c, ids, i);
    case PollSend(_) =>
      var n := s.c.poller.todo[0];
      NewRecordIsFree(s);
      SendMovesOn(s.c, i);
      RecordAppended(s.c.topic, s.marks, s.resolved, CouponKey(s.c.db.coupons[i]), s.c.db.outbox[n].payload);
      OwnResult(s.c, i);
    case PollMark => MarkingKeepsSendDue(s.c, i);
  }

  lemma OwnResult(c: C.State, i: nat)
    requires i < |c.db.outbox| == |c.db.coupons| && Tells(c.db.outbox[i].payload, c.db.coupons[i])
    ensures ResultKey(c.db.outbox[i].payload) == CouponKey(c.db.coupons[i])
  {}

  lemma NoPollKeepsDue(c: C.State, c': C.State, i: nat)
    requires RelayStays(c, c') && i < |c.db.outbox|
    ensures SendDue(c', i) <==> SendDue(c, i)
  {}

  lemma ServerKeepsTold(s: State, step: C.Step, i: nat)
    requires Inv(s) && OffsetsOk(s) && i < |s.c.db.coupons| && Enabled(s, Server(step))
    requires step.Relaying? ==> !step.poll.PollCrash? && (step.poll.PollSend? ==> step.poll.outcome.Sent?)
    ensures i < |C.Apply(s.c, step).db.coupons|
    ensures CanBeTold(Apply(s, Server(step)), i) <==> CanBeTold(s, i)
  {
    hide Inv, OffsetsOk, Apply, Tells, RecordDue, VisitDue, RelayStays, SendDue;
    hide C.CanIssue, C.CanCall, C.CanPoll, C.IssueNext, C.CallNext, C.PollNext;
    ServerLeavesKey(s, step);
    InvHasServer(s);
    RowStays(s.c, step, i);
    RowFacts(s.c, i);
    if step.Relaying? {
      RelayKeepsDue(s, step.poll, i);
    } else {
      NoPollLeavesRelay(s.c, step);
      NoPollKeepsDue(s.c, C.Apply(s.c, step), i);
      SameTopic(s.c, C.Apply(s.c, step));
    }
  }

  lemma SameTopic(c: C.State, c': C.State)
    requires RelayStays(c, c')
    ensures c'.topic == c.topic
  {}

  lemma InvHasServer(s: State)
    requires Inv(s)
    ensures C.Inv(s.c)
  {}

  // ---------------------------------------------------------------- the scheduler's steps

  /** What Redis and the scheduler themselves still promise the row. */
  ghost predicate Promised(s: State, c: Coupon) {
    Standing(s.redis, s.sched, c) || VisitDue(s.redis.zset, s.sched, CouponKey(c))
  }

  lemma FetchKeepsPromise(s: State, c: Coupon)
    requires s.sched.Fetching? && EnlistedOk(s.redis, s.enlisted)
    requires SchedOk(s.c.db.coupons, s.max, s.redis, s.enlisted, s.sched)
    ensures Promised(FetchNext(s), c) <==> Promised(s, c)
  {
    var todo, got := s.sched.todo, s.sched.got;
    if todo != [] {
      assert todo[0] in s.enlisted && Filled(s.redis, todo[0]);
      var p := ReadPending(todo[0], s.redis.hashes[todo[0]]).value;
      assert ReadPending(todo[0], s.redis.hashes[todo[0]]).Some? && p.key == todo[0];
      OneRead(got, p, CouponKey(c));
      assert CouponKey(c) in todo <==> CouponKey(c) == todo[0] || CouponKey(c) in todo[1..];
    }
    hide NotQueued, QueueOk, Filled, ReadPending, HashOf;
  }

  lemma SweepKeepsPromise(s: State, members: seq<Key>, c: Coupon)
    requires CanSchedule(s, Sweep(members))
    ensures Promised(SchedNext(s, Sweep(members)), c) <==> Promised(s, c)
  {
    assert NotQueued([], CouponKey(c));
  }

  lemma VisitKeepsPromise(s: State, row: Option<nat>, now: int, c: Coupon)
    requires CanSchedule(s, Visit(row, now)) && HasKey(s.c.db.coupons, CouponKey(c))
    ensures Promised(SchedNext(s, Visit(row, now)), c) <==> Promised(s, c)
  {
    OneFewer(s.sched.queue, CouponKey(c));
    hide NotQueued, HasKey, HashOf;
  }

  lemma MarkKeepsPromise(s: State, c: Coupon)
    requires s.sched.Marking?
    requires s.sched.givingUp ==> s.sched.mark.status == FAILED
    requires !s.sched.givingUp && s.sched.mark.key == CouponKey(c) ==> s.sched.mark.status == MapRowStatus(c.status)
    ensures Promised(SchedNext(s, SchedMarkNext), c) <==> Promised(s, c)
  {
    MarkWrites(s.redis, s.sched.mark, CouponKey(c));
    hide NotQueued, MarkCommand, HashOf;
  }

  lemma RetryKeepsPromise(s: State, ok: bool, c: Coupon)
    requires CanSchedule(s, RepublishNext(ok))
    ensures Promised(SchedNext(s, RepublishNext(ok)), c) <==> Promised(s, c)
  {
    RetryWrites(s, ok, CouponKey(c));
    assert NotQueued([], CouponKey(c));
    hide NotQueued, ValidRequest, RebuiltPayload, HashOf, HincrAttempts, HsetLastPublished, Zadd;
  }

  /** A retry leaves the status alone and scores the entry again. */
  lemma RetryWrites(s: State, ok: bool, k: Key)
    requires CanSchedule(s, RepublishNext(ok))
    ensures var s' := RepublishStep(s, ok);
            && HashOf(s'.redis, k).status == HashOf(s.redis, k).status
            && (k in s'.redis.zset <==> k in s.redis.zset || (s.sched.p.key == k && s.sched.pc.Rescoring?))
  {
    hide ValidRequest, RebuiltPayload;
  }

  lemma SchedulerCarries(s: State, i: nat)
    requires Inv(s) && i < |s.c.db.coupons| && s.sched.Marking?
    ensures s.sched.givingUp ==> s.sched.mark.status == FAILED
    ensures !s.sched.givingUp && s.sched.mark.key == CouponKey(s.c.db.coupons[i]) ==>
              s.sched.mark.status == MapRowStatus(s.c.db.coupons[i].status)
  {
    assert SchedOk(s.c.db.coupons, s.max, s.redis, s.enlisted, s.sched);
    hide Inv;
    if !s.sched.givingUp && s.sched.mark.key == CouponKey(s.c.db.coupons[i]) { CarriedIsRight(s, s.sched.mark, i); }
  }

  lemma TurnKeepsPromise(s: State, step: SchedStep, i: nat)
    requires Inv(s) && i < |s.c.db.coupons| && CanSchedule(s, step) && !step.ItemFails? && !step.SchedCrashes?
    ensures Promised(SchedNext(s, step), s.c.db.coupons[i]) <==> Promised(s, s.c.db.coupons[i])
  {
    var c := s.c.db.coupons[i];
    InvHasParts(s);
    hide Inv, AcceptsOk, EnlistedOk, SchedOk, Promised;
    match step
    case Sweep(members) => SweepKeepsPromise(s, members, c);
    case FetchOne => FetchKeepsPromise(s, c);
    case Visit(row, now) => VisitKeepsPromise(s, row, now, c);
    case SchedMarkNext => SchedulerCarries(s, i); MarkKeepsPromise(s, c);
    case RepublishNext(ok) => RetryKeepsPromise(s, ok, c);
  }

  lemma SchedulerKeepsTold(s: State, step: SchedStep, i: nat)
    requires Inv(s) && i < |s.c.db.coupons| && CanSchedule(s, step) && !step.ItemFails? && !step.SchedCrashes?
    ensures SchedNext(s, step).c == s.c
    ensures CanBeTold(SchedNext(s, step), i) <==> CanBeTold(s, i)
  {
    SchedulerLeavesConsumer(s, step);
    TurnKeepsPromise(s, step, i);
    hide Inv, CanSchedule, SchedNext, Standing, VisitDue, SendDue, RecordDue;
  }

  // ---------------------------------------------------------------- the result consumer's steps

  /** No give-up is about to overwrite the row's outcome, and no markResult about to remove a wrong one. */
  ghost predicate Safe(s: State, c: Coupon) {
    && !GivingUpSoon(s.sched, CouponKey(c))
    && (Right(s.redis, c) || forall j | j in s.marks && s.marks[j].key == CouponKey(c) :: s.marks[j].pc.SettingStatus?)
  }

  /** A step of the result consumer that does not fail. */
  predicate Works(step: MarkStep) {
    step.Deliver? || step.MarkNext? || step.Commit?
  }

  lemma MarkIsTheRows(s: State, j: nat, i: nat)
    requires Inv(s) && OffsetsOk(s) && i < |s.c.db.coupons| && j in s.marks
    ensures j < |s.c.topic| && j !in s.resolved && s.marks[j].key == ResultKey(s.c.topic[j])
    ensures s.marks[j].key == CouponKey(s.c.db.coupons[i]) ==> s.marks[j].status == MapRowStatus(s.c.db.coupons[i].status)
  {
    assert CarriesRow(s.c.db.coupons, s.marks[j]);
    hide CarriesRow;
    if s.marks[j].key == CouponKey(s.c.db.coupons[i]) { CarriedIsRight(s, s.marks[j], i); }
    hide Inv;
  }

  lemma DeliverKeepsDue(s: State, j: nat, k: Key)
    requires CanMark(s, j, Deliver)
    ensures RecordDue(s.c.topic, MarkingNext(s, j, Deliver).marks, s.resolved, k) <==>
            RecordDue(s.c.topic, s.marks, s.resolved, k)
  {
    var marks' := MarkingNext(s, j, Deliver).marks;
    assert forall n :: DueAt(s.c.topic, marks', s.resolved, k, n) <==> DueAt(s.c.topic, s.marks, s.resolved, k, n);
  }

  /** A command of a markResult takes its own record off what is due, when it writes the status. */
  lemma MarkKeepsDue(s: State, j: nat, k: Key)
    requires OffsetsOk(s) && CanMark(s, j, MarkNext)
    ensures var s' := MarkingNext(s, j, MarkNext); var writes := s.marks[j].key == k && s.marks[j].pc.SettingStatus?;
            && (RecordDue(s.c.topic, s'.marks, s'.resolved, k) ==> RecordDue(s.c.topic, s.marks, s.resolved, k))
            && (RecordDue(s.c.topic, s.marks, s.resolved, k) ==> RecordDue(s.c.topic, s'.marks, s'.resolved, k) || writes)
            && (writes ==> RecordDue(s.c.topic, s.marks, s.resolved, k))
  {
    var s' := MarkingNext(s, j, MarkNext);
    var topic := s.c.topic;
    assert IsMarkOf(s.marks[j], topic[j]);
    hide MarkCommand, OffsetsOk;
    assert forall n :: DueAt(topic, s'.marks, s'.resolved, k, n) ==> DueAt(topic, s.marks, s.resolved, k, n);
    assert forall n :: DueAt(topic, s.marks, s.resolved, k, n) && n != j ==> DueAt(topic, s'.marks, s'.resolved, k, n);
    if s.marks[j].key == k && s.marks[j].pc.SettingStatus? { assert DueAt(topic, s.marks, s.resolved, k, j); }
  }

  lemma MarkNextShape(s: State, j: nat)
    requires CanMark(s, j, MarkNext)
    ensures var s' := MarkingNext(s, j, MarkNext);
            && j in s.marks && s'.c == s.c && s'.sched == s.sched && s'.redis == MarkCommand(s.redis, s.marks[j])
  {
    hide MarkCommand;
  }

  lemma MarkKeepsTold(s: State, j: nat, i: nat)
    requires Inv(s) && OffsetsOk(s) && i < |s.c.db.coupons| && CanMark(s, j, MarkNext)
    ensures MarkingNext(s, j, MarkNext).c == s.c && MarkingNext(s, j, MarkNext).sched == s.sched
    ensures CanBeTold(MarkingNext(s, j, MarkNext), i) ==> CanBeTold(s, i)
    ensures KeepsHope(s, s.c.db.coupons[i]) ==> (CanBeTold(s, i) ==> CanBeTold(MarkingNext(s, j, MarkNext), i))
  {
    hide Inv, OffsetsOk, CanMark, MarkingNext, MarkCommand, RecordDue, InTurn, SendDue, HashOf;
    MarkNextShape(s, j);
    MarkIsTheRows(s, j, i);
    MarkWrites(s.redis, s.marks[j], CouponKey(s.c.db.coupons[i]));
    MarkKeepsDue(s, j, CouponKey(s.c.db.coupons[i]));
  }

  /** Safe, or without a visit that could be lost. */
  ghost predicate KeepsHope(s: State, c: Coupon) {
    || Safe(s, c)
    || (!VisitDue(s.redis.zset, s.sched, CouponKey(c)) && !GivingUpSoon(s.sched, CouponKey(c)))
  }

  /** What is lost stays lost; and what is safe, or has no visit to lose, stays. */
  lemma ConsumerKeepsTold(s: State, j: nat, step: MarkStep, i: nat)
    requires Inv(s) && OffsetsOk(s) && i < |s.c.db.coupons| && CanMark(s, j, step) && Works(step)
    ensures MarkingNext(s, j, step).c == s.c && MarkingNext(s, j, step).sched == s.sched
    ensures CanBeTold(MarkingNext(s, j, step), i) ==> CanBeTold(s, i)
    ensures KeepsHope(s, s.c.db.coupons[i]) ==> (CanBeTold(s, i) ==> CanBeTold(MarkingNext(s, j, step), i))
  {
    hide Inv, OffsetsOk, RecordDue, VisitDue, Standing, SendDue;
    match step
    case Deliver => DeliverKeepsDue(s, j, CouponKey(s.c.db.coupons[i]));
    case Commit =>
    case MarkNext => MarkKeepsTold(s, j, i);
  }

  // ---------------------------------------------------------------- all of them

  lemma AcceptsKeepTold(s: State, id: nat, step: AcceptStep, i: nat)
    requires Inv(s) && i < |s.c.db.coupons| && CanAccept(s, id, step)
    ensures AcceptNext(s, id, step).c == s.c
    ensures CanBeTold(AcceptNext(s, id, step), i) <==> CanBeTold(s, i)
  {
    RowIsEnlisted(s, i);
    InvHasParts(s);
    hide Inv, EnlistedOk, SchedOk, AcceptsOk, CanAccept, AcceptNext, InTurn, SendDue, RecordDue, HashOf;
    AcceptsLeaveKey(s, id, step, CouponKey(s.c.db.coupons[i]));
    AcceptsLeaveConsumer(s, id, step);
  }

  lemma CalmStepsWork(w: World, s: State, t: Tick)
    requires CalmTick(w, s, t)
    ensures t.step.Consuming? ==> Works(t.step.mark)
    ensures t.step.Recovering? ==> !t.step.sched.ItemFails? && !t.step.sched.SchedCrashes?
    ensures t.step.Server? && t.step.step.Relaying? ==>
              && !t.step.step.poll.PollCrash?
              && (t.step.step.poll.PollSend? ==> t.step.step.poll.outcome.Sent?)
  {
    hide IsSwept, ValidRequest;
  }

  /**
   * A step that does not fail makes nothing good that is lost; and what can come right it leaves so,
   * unless a give-up or a removal overtakes the result.
   */
  lemma StepKeepsTold(w: World, s: State, t: Tick, i: nat)
    requires Inv(s) && OffsetsOk(s) && i < |s.c.db.coupons| && Enabled(s, t.step) && CalmTick(w, s, t)
    ensures i < |Apply(s, t.step).c.db.coupons|
    ensures CanBeTold(Apply(s, t.step), i) ==> CanBeTold(s, i)
    ensures t.step.Recovering? || KeepsHope(s, s.c.db.coupons[i]) ==> (CanBeTold(s, i) ==> CanBeTold(Apply(s, t.step), i))
  {
    CalmStepsWork(w, s, t);
    hide Inv, OffsetsOk, CalmTick, CanBeTold, KeepsHope, Works, C.Enabled, C.Apply;
    hide CanAccept, AcceptNext, CanMark, MarkingNext, CanSchedule, SchedNext;
    match t.step
    case Server(st) => ServerKeepsTold(s, st, i);
    case Accepting(id, st) => AcceptsKeepTold(s, id, st, i);
    case Consuming(j, st) => ConsumerKeepsTold(s, j, st, i);
    case Recovering(st) => SchedulerKeepsTold(s, st, i);
    case LateSend(m) => LateSendKeepsTold(s, m, i);
  }

  lemma LateSendKeepsTold(s: State, m: RequestPayload, i: nat)
    requires i < |s.c.db.coupons|
    ensures CanBeTold(s.(requests := s.requests + [m]), i) <==> CanBeTold(s, i)
  {
    hide RecordDue, VisitDue, SendDue, Standing;
  }
}
