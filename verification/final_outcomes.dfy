/**
 * What becomes of a row's outcome in Redis over whole runs: over runs in which nothing fails it is
 * settled by what can still be told, and over all runs a wrong one that nothing can correct any
 * more is final.
 */
module FinalOutcomes {
  import opened Basics
  import opened Payloads
  import opened CouponDb
  import opened Redis
  import opened System
  import opened SystemProofs
  import opened ResultOffsets
  import opened Calm
  import opened RunFairness
  import opened Outcomes
  import C = ServerC

  // ---------------------------------------------------------------- runs in which nothing fails

  lemma TickKeepsInv(s: State, step: Step)
    requires Inv(s) && OffsetsOk(s) && Enabled(s, step)
    ensures Inv(Apply(s, step)) && OffsetsOk(Apply(s, step))
  {
    hide Inv, OffsetsOk, Enabled, Apply;
    StepKeepsInv(s, step);
    StepKeepsOffsets(s, step);
  }

  /** What is lost stays lost. */
  lemma {:induction false} LostStaysLost(w: World, s: State, from: int, ticks: seq<Tick>, s': State, to: int, i: nat)
    requires Inv(s) && OffsetsOk(s) && i < |s.c.db.coupons| && Leads(w, s, from, ticks, s', to)
    ensures i < |s'.c.db.coupons| && (CanBeTold(s', i) ==> CanBeTold(s, i))
    decreases ticks
  {
    hide Inv, OffsetsOk, Enabled, Apply, CalmTick, CanBeTold, KeepsHope;
    if ticks != [] {
      StepKeepsTold(w, s, ticks[0], i);
      TickKeepsInv(s, ticks[0].step);
      LostStaysLost(w, Apply(s, ticks[0].step), ticks[0].at, ticks[1..], s', to, i);
    }
  }

  lemma SafeOverServer(s: State, step: C.Step, i: nat)
    requires Inv(s) && i < |s.c.db.coupons| && Enabled(s, Server(step)) && Safe(s, s.c.db.coupons[i])
    ensures i < |C.Apply(s.c, step).db.coupons|
    ensures Safe(Apply(s, Server(step)), C.Apply(s.c, step).db.coupons[i])
  {
    hide Inv, Apply, C.Apply, HashOf;
    ServerLeavesKey(s, step);
    InvHasServer(s);
    hide Enabled;
    RowStays(s.c, step, i);
  }

  lemma SafeOverAccepts(s: State, id: nat, step: AcceptStep, i: nat)
    requires Inv(s) && i < |s.c.db.coupons| && CanAccept(s, id, step) && Safe(s, s.c.db.coupons[i])
    ensures AcceptNext(s, id, step).c == s.c && Safe(AcceptNext(s, id, step), s.c.db.coupons[i])
  {
    hide Inv, EnlistedOk, SchedOk, AcceptsOk, CanAccept, AcceptNext, HashOf;
    RowIsEnlisted(s, i);
    InvHasParts(s);
    AcceptsLeaveKey(s, id, step, CouponKey(s.c.db.coupons[i]));
    AcceptsLeaveConsumer(s, id, step);
  }

  lemma SafeOverMark(s: State, j: nat, i: nat)
    requires Inv(s) && OffsetsOk(s) && i < |s.c.db.coupons| && CanMark(s, j, MarkNext) && Safe(s, s.c.db.coupons[i])
    ensures MarkingNext(s, j, MarkNext).c == s.c && Safe(MarkingNext(s, j, MarkNext), s.c.db.coupons[i])
  {
    hide Inv, OffsetsOk, MarkCommand, HashOf;
    MarkNextShape(s, j);
    MarkIsTheRows(s, j, i);
    MarkWrites(s.redis, s.marks[j], CouponKey(s.c.db.coupons[i]));
  }

  lemma SafeOverConsumer(s: State, j: nat, step: MarkStep, i: nat)
    requires Inv(s) && OffsetsOk(s) && i < |s.c.db.coupons| && CanMark(s, j, step) && Works(step)
    requires Safe(s, s.c.db.coupons[i])
    ensures MarkingNext(s, j, step).c == s.c && Safe(MarkingNext(s, j, step), s.c.db.coupons[i])
  {
    hide Inv, OffsetsOk, HashOf;
    if step.MarkNext? { SafeOverMark(s, j, i); }
    hide MarkCommand;
  }

  /** What one step of the scheduler does to the status of one key. */
  lemma TurnWrites(s: State, step: SchedStep, k: Key)
    requires CanSchedule(s, step)
    ensures var r' := SchedNext(s, step).redis;
            HashOf(r', k).status ==
            if step.SchedMarkNext? && s.sched.mark.key == k && s.sched.mark.pc.SettingStatus? then Some(s.sched.mark.status)
            else HashOf(s.redis, k).status
  {
    if step.SchedMarkNext? {
      MarkWrites(s.redis, s.sched.mark, k);
      hide MarkCommand;
    } else if step.RepublishNext? {
      RetryWrites(s, step.ok, k);
      hide RepublishStep;
    }
    hide HasKey, ReadPending;
  }

  /** No give-up is decided while there is a row. */
  lemma NoGiveUpOfARow(s: State, step: SchedStep, k: Key)
    requires CanSchedule(s, step) && HasKey(s.c.db.coupons, k) && !GivingUpSoon(s.sched, k)
    ensures !GivingUpSoon(SchedNext(s, step).sched, k)
  {
    hide HasKey, ReadPending, MarkCommand, ValidRequest, HashOf, Zadd, HincrAttempts, HsetLastPublished;
  }

  lemma SafeOverScheduler(s: State, step: SchedStep, i: nat)
    requires Inv(s) && i < |s.c.db.coupons| && CanSchedule(s, step) && Safe(s, s.c.db.coupons[i])
    ensures SchedNext(s, step).c == s.c && Safe(SchedNext(s, step), s.c.db.coupons[i])
  {
    var k := CouponKey(s.c.db.coupons[i]);
    assert HasKey(s.c.db.coupons, k);
    if s.sched.Marking? { SchedulerCarries(s, i); }
    TurnWrites(s, step, k);
    NoGiveUpOfARow(s, step, k);
    SchedulerLeavesConsumer(s, step);
    assert step.SchedMarkNext? ==> s.sched.Marking?;
    hide Inv, CanSchedule, SchedNext, HashOf, HasKey;
  }

  lemma SafeOverStep(w: World, s: State, t: Tick, i: nat)
    requires Inv(s) && OffsetsOk(s) && i < |s.c.db.coupons| && Enabled(s, t.step) && CalmTick(w, s, t)
    requires Safe(s, s.c.db.coupons[i])
    ensures var s' := Apply(s, t.step); i < |s'.c.db.coupons| && Safe(s', s'.c.db.coupons[i])
  {
    CalmStepsWork(w, s, t);
    hide Inv, OffsetsOk, CalmTick, Works, C.Enabled, C.Apply;
    hide CanAccept, AcceptNext, CanMark, MarkingNext, CanSchedule, SchedNext;
    match t.step
    case Server(st) => SafeOverServer(s, st, i);
    case Accepting(id, st) => SafeOverAccepts(s, id, st, i);
    case Consuming(j, st) => SafeOverConsumer(s, j, st, i);
    case Recovering(st) => SafeOverScheduler(s, st, i);
    case LateSend(m) =>
  }

  lemma SafeKeepsHope(s: State, c: Coupon)
    requires Safe(s, c)
    ensures KeepsHope(s, c)
  {}

  /** With no give-up or removal in the way, what can come right does, whatever else runs. */
  lemma {:induction false} SafeStaysTold(w: World, s: State, from: int, ticks: seq<Tick>, s': State, to: int, i: nat)
    requires Inv(s) && OffsetsOk(s) && i < |s.c.db.coupons| && Leads(w, s, from, ticks, s', to)
    requires Safe(s, s.c.db.coupons[i])
    ensures i < |s'.c.db.coupons| && (CanBeTold(s', i) <==> CanBeTold(s, i))
    decreases ticks
  {
    hide Inv, OffsetsOk, Enabled, Apply, CalmTick, CanBeTold, KeepsHope, Safe;
    if ticks != [] {
      SafeKeepsHope(s, s.c.db.coupons[i]);
      StepKeepsTold(w, s, ticks[0], i);
      SafeOverStep(w, s, ticks[0], i);
      TickKeepsInv(s, ticks[0].step);
      SafeStaysTold(w, Apply(s, ticks[0].step), ticks[0].at, ticks[1..], s', to, i);
    }
  }

  /** The set is empty, every record is consumed, every result sent: nothing is left to do for the rows there are. */
  ghost predicate Quiet(s: State) {
    && s.sched.Resting? && s.redis.zset == map[] && s.marks == map[] && s.c.poller.Idle?
    && (forall n | 0 <= n < |s.c.db.outbox| :: s.c.db.outbox[n].published)
    && forall j | 0 <= j < |s.c.topic| :: j in s.resolved
  }

  lemma QuietIsSettled(s: State, i: nat)
    requires Quiet(s) && i < |s.c.db.coupons|
    ensures CanBeTold(s, i) <==> Right(s.redis, s.c.db.coupons[i])
  {}

  // ---------------------------------------------------------------- all runs

  /** Redis is wrong about the row, and nothing is to come that looks at it again, even after a crash. */
  ghost predicate Abandoned(s: State, i: nat)
    requires i < |s.c.db.coupons|
  {
    var k := CouponKey(s.c.db.coupons[i]);
    && !Right(s.redis, s.c.db.coupons[i])
    && k !in s.redis.zset && !InTurn(s.sched, k)
    && SentForGood(s.c, i) && forall j | 0 <= j < |s.c.topic| && ResultKey(s.c.topic[j]) == k :: j in s.committed
  }

  predicate SentForGood(c: C.State, i: nat) {
    && i < |c.db.outbox| && c.db.outbox[i].published
    && !(c.poller.Polling? && i in c.poller.todo)
  }

  /** Then Redis says FAILED, and the row does not. */
  lemma AbandonedIsAGiveUp(s: State, i: nat)
    requires Inv(s) && i < |s.c.db.coupons| && Abandoned(s, i)
    ensures HashOf(s.redis, CouponKey(s.c.db.coupons[i])).status == Some(FAILED) && !s.c.db.coupons[i].status.Failed?
  {
    var k := CouponKey(s.c.db.coupons[i]);
    RowIsEnlisted(s, i);
    assert Tracked(s.redis, k);
    assert StatusOk(s.c.db.coupons, s.max, s.givenUp, k, s.redis.hashes[k]);
    assert OnePerUser(s.c.db.coupons);
    hide Inv;
    if RowMaps(s.c.db.coupons, k, s.redis.hashes[k].status.value) {
      RowStatusMaps(s.c.db.coupons, i, s.redis.hashes[k].status.value);
    }
  }

  lemma PollsLeaveSent(c: C.State, step: C.PollStep, i: nat)
    requires C.Inv(c) && C.CanPoll(c, step) && i < |c.db.coupons| && SentForGood(c, i)
    ensures var c' := C.PollNext(c, step);
            && SentForGood(c', i) && |c.topic| <= |c'.topic|
            && forall j | 0 <= j < |c'.topic| && ResultKey(c'.topic[j]) == CouponKey(c.db.coupons[i]) ::
                 j < |c.topic| && c'.topic[j] == c.topic[j]
  {
    RowFacts(c, i);
    hide C.Inv, Tells;
  }

  lemma NoPollLeavesSent(c: C.State, c': C.State, i: nat)
    requires RelayStays(c, c') && SentForGood(c, i)
    ensures SentForGood(c', i)
  {}

  lemma ServerKeepsAbandoned(s: State, step: C.Step, i: nat)
    requires Inv(s) && i < |s.c.db.coupons| && Enabled(s, Server(step)) && Abandoned(s, i)
    ensures i < |C.Apply(s.c, step).db.coupons| && Abandoned(Apply(s, Server(step)), i)
  {
    hide Inv, Apply, HashOf, InTurn, SentForGood, RelayStays;
    hide C.CanIssue, C.CanCall, C.CanPoll, C.IssueNext, C.CallNext, C.PollNext;
    ServerLeavesKey(s, step);
    InvHasServer(s);
    RowStays(s.c, step, i);
    if step.Relaying? {
      PollsLeaveSent(s.c, step.poll, i);
    } else {
      NoPollLeavesRelay(s.c, step);
      NoPollLeavesSent(s.c, C.Apply(s.c, step), i);
      SameTopic(s.c, C.Apply(s.c, step));
    }
  }

  lemma AcceptsKeepAbandoned(s: State, id: nat, step: AcceptStep, i: nat)
    requires Inv(s) && i < |s.c.db.coupons| && CanAccept(s, id, step) && Abandoned(s, i)
    ensures AcceptNext(s, id, step).c == s.c && Abandoned(AcceptNext(s, id, step), i)
  {
    hide Inv, EnlistedOk, SchedOk, AcceptsOk, CanAccept, AcceptNext, HashOf, InTurn, SentForGood;
    RowIsEnlisted(s, i);
    InvHasParts(s);
    AcceptsLeaveKey(s, id, step, CouponKey(s.c.db.coupons[i]));
    AcceptsLeaveConsumer(s, id, step);
  }

  lemma ConsumerKeepsAbandoned(s: State, j: nat, step: MarkStep, i: nat)
    requires Inv(s) && OffsetsOk(s) && i < |s.c.db.coupons| && CanMark(s, j, step) && Abandoned(s, i)
    ensures MarkingNext(s, j, step).c == s.c && Abandoned(MarkingNext(s, j, step), i)
  {
    hide Inv, OffsetsOk, HashOf, InTurn, SentForGood, ValidResult;
    if step.MarkNext? { MarkKeepsAbandoned(s, j, i); }
    hide MarkCommand, MarkAfter;
  }

  lemma CommittedIsResolved(s: State)
    requires OffsetsOk(s)
    ensures s.committed <= s.resolved
  {}

  lemma MarkKeepsAbandoned(s: State, j: nat, i: nat)
    requires Inv(s) && OffsetsOk(s) && i < |s.c.db.coupons| && CanMark(s, j, MarkNext) && Abandoned(s, i)
    ensures MarkingNext(s, j, MarkNext).c == s.c && Abandoned(MarkingNext(s, j, MarkNext), i)
  {
    hide Inv, OffsetsOk, HashOf, InTurn, SentForGood, MarkCommand, CanMark;
    MarkNextShape(s, j);
    MarkIsTheRows(s, j, i);
    CommittedIsResolved(s);
    MarkWrites(s.redis, s.marks[j], CouponKey(s.c.db.coupons[i]));
    hide MarkAfter;
  }

  lemma NoTurnBegins(s: State, step: SchedStep, k: Key)
    requires CanSchedule(s, step) && k !in s.redis.zset && !InTurn(s.sched, k)
    ensures k !in SchedNext(s, step).redis.zset && !InTurn(SchedNext(s, step).sched, k)
  {
    hide InTurn, NotQueued, HasKey, FetchNext, RepublishStep, MarkCommand;
    match step
    case FetchOne => NoFetchBegins(s, k);
    case Visit(row, now) => NoVisitBegins(s, row, now, k);
    case SchedMarkNext => NoMarkBegins(s, k);
    case RepublishNext(ok) => NoRetryBegins(s, ok, k);
    case _ => NoOtherBegins(s, step, k);
  }

  lemma NoVisitBegins(s: State, row: Option<nat>, now: int, k: Key)
    requires CanSchedule(s, Visit(row, now)) && k !in s.redis.zset && !InTurn(s.sched, k)
    ensures var s' := SchedNext(s, Visit(row, now)); k !in s'.redis.zset && !InTurn(s'.sched, k)
  {
    OneFewer(s.sched.queue, k);
    hide NotQueued, HasKey;
  }

  lemma NoMarkBegins(s: State, k: Key)
    requires s.sched.Marking? && k !in s.redis.zset && !InTurn(s.sched, k)
    ensures var s' := SchedNext(s, SchedMarkNext); k !in s'.redis.zset && !InTurn(s'.sched, k)
  {
    assert NotQueued([], k);
    MarkWrites(s.redis, s.sched.mark, k);
    hide NotQueued, MarkCommand, HashOf;
  }

  lemma NoRetryBegins(s: State, ok: bool, k: Key)
    requires CanSchedule(s, RepublishNext(ok)) && k !in s.redis.zset && !InTurn(s.sched, k)
    ensures var s' := SchedNext(s, RepublishNext(ok)); k !in s'.redis.zset && !InTurn(s'.sched, k)
  {
    assert NotQueued([], k);
    RetryWrites(s, ok, k);
    hide NotQueued, HincrAttempts, HsetLastPublished, Zadd, HashOf, ValidRequest;
  }

  lemma NoOtherBegins(s: State, step: SchedStep, k: Key)
    requires CanSchedule(s, step) && (step.Sweep? || step.ItemFails? || step.SchedCrashes?)
    requires k !in s.redis.zset && !InTurn(s.sched, k)
    ensures var s' := SchedNext(s, step); k !in s'.redis.zset && !InTurn(s'.sched, k)
  {
    assert NotQueued([], k);
    if s.sched.Working? && s.sched.queue != [] { OneFewer(s.sched.queue, k); }
    hide NotQueued;
  }

  lemma NoFetchBegins(s: State, k: Key)
    requires s.sched.Fetching? && k !in s.redis.zset && !InTurn(s.sched, k)
    ensures k !in FetchNext(s).redis.zset && !InTurn(FetchNext(s).sched, k)
  {
    var todo, got := s.sched.todo, s.sched.got;
    if todo != [] {
      if todo[0] in s.redis.hashes && ReadPending(todo[0], s.redis.hashes[todo[0]]).Some? {
        OneRead(got, ReadPending(todo[0], s.redis.hashes[todo[0]]).value, k);
      }
      assert k != todo[0] && k !in todo[1..];
    }
    hide NotQueued;
  }

  lemma MarkingIsUnderWay(s: State)
    requires CanSchedule(s, SchedMarkNext)
    ensures s.sched.Marking?
  {}

  lemma NoTurnMeansGiveUp(sched: Scheduler, k: Key)
    requires sched.Marking? && !InTurn(sched, k) && sched.mark.key == k && sched.mark.pc.SettingStatus?
    ensures sched.givingUp
  {}

  lemma SchedulerKeepsAbandoned(s: State, step: SchedStep, i: nat)
    requires Inv(s) && i < |s.c.db.coupons| && CanSchedule(s, step) && Abandoned(s, i)
    ensures SchedNext(s, step).c == s.c && Abandoned(SchedNext(s, step), i)
  {
    hide Inv, CanSchedule, SchedNext, HashOf, SchedOk, EnlistedOk, AcceptsOk, InTurn, SentForGood, NotQueued;
    var k := CouponKey(s.c.db.coupons[i]);
    AbandonedIsAGiveUp(s, i);
    InvHasParts(s);
    TurnWrites(s, step, k);
    NoTurnBegins(s, step, k);
    SchedulerLeavesConsumer(s, step);
    if step.SchedMarkNext? {
      MarkingIsUnderWay(s);
      SchedulerCarries(s, i);
      if s.sched.mark.key == k && s.sched.mark.pc.SettingStatus? { NoTurnMeansGiveUp(s.sched, k); }
    }
  }

  lemma StepKeepsAbandoned(s: State, step: Step, i: nat)
    requires Inv(s) && OffsetsOk(s) && i < |s.c.db.coupons| && Enabled(s, step) && Abandoned(s, i)
    ensures i < |Apply(s, step).c.db.coupons| && Abandoned(Apply(s, step), i)
  {
    hide Inv, OffsetsOk, C.Enabled, C.Apply, Right, InTurn, SentForGood;
    hide CanAccept, AcceptNext, CanMark, MarkingNext, CanSchedule, SchedNext;
    match step
    case Server(st) => ServerKeepsAbandoned(s, st, i);
    case Accepting(id, st) => AcceptsKeepAbandoned(s, id, st, i);
    case Consuming(j, st) => ConsumerKeepsAbandoned(s, j, st, i);
    case Recovering(st) => SchedulerKeepsAbandoned(s, st, i);
    case LateSend(m) =>
  }

  /** Over every run, whatever fails or is taken back, it stays so. */
  lemma {:induction false} AbandonedForGood(s: State, steps: seq<Step>, i: nat)
    requires Inv(s) && OffsetsOk(s) && i < |s.c.db.coupons| && Runs(s, steps) && Abandoned(s, i)
    ensures i < |After(s, steps).c.db.coupons| && Abandoned(After(s, steps), i)
    decreases steps
  {
    hide Inv, OffsetsOk, Enabled, Apply, Abandoned;
    if steps != [] {
      StepKeepsAbandoned(s, steps[0], i);
      StepKeepsInv(s, steps[0]);
      StepKeepsOffsets(s, steps[0]);
      AbandonedForGood(Apply(s, steps[0]), steps[1..], i);
    }
  }

  /** Redis shows the outcome of row i. */
  predicate ShowsRow(s: State, i: nat) {
    i < |s.c.db.coupons| && Right(s.redis, s.c.db.coupons[i])
  }

  lemma StaysFailed(s: State, steps: seq<Step>, i: nat)
    requires Inv(s) && OffsetsOk(s) && i < |s.c.db.coupons| && Runs(s, steps) && Abandoned(s, i)
    ensures !ShowsRow(After(s, steps), i)
    ensures HashOf(After(s, steps).redis, CouponKey(s.c.db.coupons[i])).status == Some(FAILED)
  {
    AbandonedForGood(s, steps, i);
    RunKeepsInv(s, steps);
    hide Inv, OffsetsOk, Runs, After;
    AbandonedIsAGiveUp(After(s, steps), i);
    RunKeepsRow(s, steps, i);
  }

  lemma {:induction false} RunKeepsRow(s: State, steps: seq<Step>, i: nat)
    requires Inv(s) && i < |s.c.db.coupons| && Runs(s, steps)
    ensures i < |After(s, steps).c.db.coupons|
    ensures CouponKey(After(s, steps).c.db.coupons[i]) == CouponKey(s.c.db.coupons[i])
    decreases steps
  {
    hide Inv, Enabled, Apply;
    if steps != [] {
      StepKeepsRow(s, steps[0], i);
      StepKeepsInv(s, steps[0]);
      RunKeepsRow(Apply(s, steps[0]), steps[1..], i);
    }
  }

  lemma StepKeepsRow(s: State, step: Step, i: nat)
    requires Inv(s) && i < |s.c.db.coupons| && Enabled(s, step)
    ensures var cs' := Apply(s, step).c.db.coupons; i < |cs'| && CouponKey(cs'[i]) == CouponKey(s.c.db.coupons[i])
  {
    hide Inv, C.Apply;
    InvHasServer(s);
    match step
    case Server(st) => ServerLeavesKey(s, st); RowStays(s.c, st, i);
    case Consuming(j, st) =>
    case Accepting(_, _) => OthersLeaveConsumer(s, step); hide Enabled, Apply;
    case Recovering(_) => OthersLeaveConsumer(s, step); hide Enabled, Apply;
    case LateSend(_) =>
  }
}
