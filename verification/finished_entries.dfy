/**
 * Whether an application with an outcome is found by the scheduler again. A complete markResult
 * takes it off the set; the only thing that puts it back is the last command of a retry that was
 * under way, and whether one is can be told from the state.
 */
module FinishedEntries {
  import opened Payloads
  import opened CouponDb
  import opened Redis
  import opened System
  import opened SystemProofs
  import opened SystemTheorems
  import opened Scenario
  import C = ServerC

  /** It has its outcome and no sweep can find it. */
  predicate Left(s: State, k: Key) {
    k in s.redis.hashes && Terminal(s.redis.hashes[k]) && k !in s.redis.zset
  }

  /** The scheduler is retrying the application and has its ZADD still to come. */
  predicate AboutToRescore(s: State, k: Key) {
    s.sched.Republishing? && !s.sched.pc.Resending? && s.sched.p.key == k
  }

  /** That ZADD. */
  predicate PutsBack(s: State, step: Step, k: Key) {
    && step.Recovering? && step.sched.RepublishNext?
    && s.sched.Republishing? && s.sched.pc.Rescoring? && s.sched.p.key == k
  }

  /** The ZREM of a markResult, of either party. */
  predicate TakesOff(s: State, step: Step, k: Key) {
    || (step.Consuming? && step.mark.MarkNext? && step.offset in s.marks
        && s.marks[step.offset].key == k && s.marks[step.offset].pc.Removing?)
    || (step == Recovering(SchedMarkNext) && s.sched.Marking? && s.sched.mark.key == k && s.sched.mark.pc.Removing?)
  }

  lemma AcceptingAddsNobodyFinished(s: State, id: nat, step: AcceptStep, k: Key)
    requires CanAccept(s, id, step) && EnlistedOk(s.redis, s.enlisted) && Left(s, k)
    requires !step.Claim? ==> AcceptOk(s.redis, s.enlisted, s.accepts[id])
    ensures k !in AcceptNext(s, id, step).redis.zset
  {}

  lemma MarkCommandAddsNobody(r: Redis, m: Mark, k: Key)
    ensures k in MarkCommand(r, m).zset ==> k in r.zset
    ensures m.pc.Removing? ==> m.key !in MarkCommand(r, m).zset
  {}

  lemma SchedulingAdds(s: State, step: SchedStep, k: Key)
    requires CanSchedule(s, step) && k !in s.redis.zset
    ensures k in SchedNext(s, step).redis.zset <==> PutsBack(s, Recovering(step), k)
  {
    hide MarkAfter, ReadPending, ValidRequest, Filled, HashOf, HasKey;
    if step.SchedMarkNext? { MarkCommandAddsNobody(s.redis, s.sched.mark, k); }
    hide MarkCommand;
  }

  lemma OutcomeStays(s: State, step: Step, k: Key)
    requires Inv(s) && Enabled(s, step) && Left(s, k)
    ensures k in Apply(s, step).redis.hashes && Terminal(Apply(s, step).redis.hashes[k])
  {
    hide Inv, Enabled, Apply, CutOff, AttemptsOf, HashOf, Paid;
    StepIsOnward(s, step, k);
  }

  lemma InvHasAccept(s: State, id: nat)
    requires Inv(s)
    ensures EnlistedOk(s.redis, s.enlisted) && (id in s.accepts ==> AcceptOk(s.redis, s.enlisted, s.accepts[id]))
  {}

  lemma ConsumingAddsNobody(s: State, j: nat, step: MarkStep, k: Key)
    requires CanMark(s, j, step) && k !in s.redis.zset
    ensures k !in MarkingNext(s, j, step).redis.zset
  {
    if step.MarkNext? { MarkCommandAddsNobody(s.redis, s.marks[j], k); }
    hide MarkCommand, MarkAfter, ValidResult;
  }

  lemma StepAdds(s: State, step: Step, k: Key)
    requires Inv(s) && Enabled(s, step) && Left(s, k)
    ensures k in Apply(s, step).redis.zset <==> PutsBack(s, step, k)
  {
    hide Inv, CanAccept, AcceptNext, CanMark, MarkingNext, CanSchedule, SchedNext, EnlistedOk, AcceptOk;
    match step
    case Server(st) =>
    case Accepting(id, st) =>
      InvHasAccept(s, id);
      CanAcceptKnows(s, id, st);
      AcceptingAddsNobodyFinished(s, id, st, k);
    case Consuming(j, st) => ConsumingAddsNobody(s, j, st, k);
    case Recovering(st) => SchedulingAdds(s, st, k);
    case LateSend(m) =>
  }

  lemma CanAcceptKnows(s: State, id: nat, step: AcceptStep)
    requires CanAccept(s, id, step)
    ensures step.Claim? || id in s.accepts
  {}

  /** Of all steps of all parties, only that ZADD brings a finished entry back. */
  lemma OnlyARescoreBringsItBack(s: State, step: Step, k: Key)
    requires Inv(s) && Enabled(s, step) && Left(s, k)
    ensures Left(Apply(s, step), k) <==> !PutsBack(s, step, k)
  {
    hide Inv, Enabled, Apply, PutsBack;
    OutcomeStays(s, step, k);
    StepAdds(s, step, k);
  }

  lemma RemovingLeaves(r: Redis, e: set<Key>, m: Mark)
    requires MarkOk(r, e, m) && m.pc.Removing?
    ensures m.key in MarkCommand(r, m).hashes && Terminal(MarkCommand(r, m).hashes[m.key])
    ensures m.key !in MarkCommand(r, m).zset
  {}

  lemma MarksAreOk(s: State, step: Step, k: Key)
    requires Inv(s) && Enabled(s, step) && TakesOff(s, step, k)
    ensures step.Consuming? ==> MarkOk(s.redis, s.enlisted, s.marks[step.offset])
    ensures step.Recovering? ==> MarkOk(s.redis, s.enlisted, s.sched.mark)
  {
    hide C.Inv, HashesOk, EnlistedOk, AcceptsOk, MessagesOk, OriginOk, MarkOk, CarriesRow, QueueOk;
  }

  /** And the last command of a markResult takes it off: then it has its outcome and cannot be found. */
  lemma TheLastCommandTakesItOff(s: State, step: Step, k: Key)
    requires Inv(s) && Enabled(s, step) && TakesOff(s, step, k)
    ensures Left(Apply(s, step), k)
  {
    hide Inv, MarkOk, MarkCommand, MarkAfter;
    MarksAreOk(s, step, k);
    if step.Consuming? {
      RemovingLeaves(s.redis, s.enlisted, s.marks[step.offset]);
    } else {
      RemovingLeaves(s.redis, s.enlisted, s.sched.mark);
    }
  }

  /** What is finished is not retried: it has a row, or all its attempts are used. */
  lemma FinishedHasNoAttemptsLeft(s: State, row: Option<nat>, now: int)
    requires Inv(s) && CanSchedule(s, Visit(row, now)) && row.None?
    requires var k := s.sched.queue[0].key; k in s.redis.hashes && Terminal(s.redis.hashes[k])
    ensures s.sched.queue[0].attempts >= s.max
  {
    var p := s.sched.queue[0];
    assert ItemOk(s.redis, s.enlisted, p);
    assert StatusOk(s.c.db.coupons, s.max, s.givenUp, p.key, s.redis.hashes[p.key]);
    hide Inv;
    NoRowNoMapping(s.c.db.coupons, p.key);
  }

  lemma FinishedIsNotRetried(s: State, row: Option<nat>, now: int, k: Key)
    requires Inv(s) && CanSchedule(s, Visit(row, now)) && k in s.redis.hashes && Terminal(s.redis.hashes[k])
    ensures !AboutToRescore(SchedNext(s, Visit(row, now)), k)
  {
    hide Inv, Terminal, HasKey;
    if s.sched.queue[0].key == k && row.None? { FinishedHasNoAttemptsLeft(s, row, now); }
  }

  lemma NoRowNoMapping(cs: seq<Coupon>, k: Key)
    requires !HasKey(cs, k)
    ensures forall status :: !RowMaps(cs, k, status)
  {}

  lemma NoRetryBegins(s: State, step: Step, k: Key)
    requires Inv(s) && Enabled(s, step) && k in s.redis.hashes && Terminal(s.redis.hashes[k]) && !AboutToRescore(s, k)
    ensures !AboutToRescore(Apply(s, step), k)
  {
    if step.Recovering? && step.sched.Visit? {
      FinishedIsNotRetried(s, step.sched.row, step.sched.now, k);
      hide Inv, CanSchedule, SchedNext;
    } else if step.Recovering? {
      OtherTurnsBeginNoRetry(s, step.sched, k);
      hide Inv, CanSchedule, SchedNext;
    } else if step.Accepting? || step.Consuming? {
      OthersLeaveScheduler(s, step);
      hide Inv, Enabled, Apply;
    }
  }

  lemma OtherTurnsBeginNoRetry(s: State, step: SchedStep, k: Key)
    requires CanSchedule(s, step) && !step.Visit? && !AboutToRescore(s, k)
    ensures !AboutToRescore(SchedNext(s, step), k)
  {
    hide MarkCommand, MarkAfter, ReadPending, ValidRequest, HasKey, HincrAttempts, HsetLastPublished, Zadd, Zrem;
  }

  /** Once out, and with no retry of it under way, it stays out over every run. */
  lemma {:induction false} StaysOut(s: State, steps: seq<Step>, k: Key)
    requires Inv(s) && Runs(s, steps) && Left(s, k) && !AboutToRescore(s, k)
    ensures Left(After(s, steps), k) && !AboutToRescore(After(s, steps), k)
    decreases steps
  {
    if steps != [] {
      OnlyARescoreBringsItBack(s, steps[0], k);
      NoRetryBegins(s, steps[0], k);
      StepKeepsInv(s, steps[0]);
      hide Inv, Enabled, Apply, Left;
      StaysOut(Apply(s, steps[0]), steps[1..], k);
    }
  }

  /** A retry that is under way can finish, and then the entry is back. */
  lemma {:induction false} RetryPutsItBack(s: State, k: Key) returns (steps: seq<Step>)
    requires AboutToRescore(s, k)
    ensures Runs(s, steps) && k in After(s, steps).redis.zset
    decreases match s.sched.pc case Counting => 3 case Stamping => 2 case Rescoring => 1 case Resending => 0
  {
    var step := Recovering(RepublishNext(false));
    var s' := Apply(s, step);
    if s.sched.pc.Rescoring? {
      assert k in s'.redis.zset;
      hide Enabled, Apply;
      steps := [step];
      assert steps[1..] == [] && Runs(s', []);
    } else {
      assert AboutToRescore(s', k);
      var rest := RetryPutsItBack(s', k);
      hide Enabled, Apply;
      steps := [step] + rest;
      assert steps[1..] == rest;
    }
  }

  /**
   * When is a finished application never found again, whatever happens? Exactly when it is off the
   * set and the scheduler is not between two commands of a retry of it.
   */
  lemma FinishedForGood(s: State, k: Key)
    requires Inv(s) && k in s.redis.hashes && Terminal(s.redis.hashes[k])
    ensures (forall steps | Runs(s, steps) :: k !in After(s, steps).redis.zset) <==>
            k !in s.redis.zset && !AboutToRescore(s, k)
  {
    hide Inv;
    if k in s.redis.zset {
      NoSteps(s);
    } else if AboutToRescore(s, k) {
      var _ := RetryPutsItBack(s, k);
    } else {
      forall steps | Runs(s, steps) ensures k !in After(s, steps).redis.zset {
        StaysOut(s, steps, k);
      }
    }
  }

  const AGAIN := Recovering(RepublishNext(true))

  /** The retry whose visit the result has overtaken, up to its ZADD. */
  const RETRY := [AGAIN, AGAIN, AGAIN]

  /**
   * It happens with no command failing: a retry is decided, then server-c issues and the whole
   * result is written; the retry puts the finished application back, to be sent once more.
   */
  lemma ARetryCanPutAFinishedEntryBack() returns (run: seq<Step>)
    ensures Init(Start(2)) && Runs(Start(2), run) && Left(After(Start(2), run), KEY)
    ensures AboutToRescore(After(Start(2), run), KEY)
    ensures var s := After(Start(2), run);
            && Runs(s, RETRY)
            && var end := After(s, RETRY);
               && KEY in end.redis.hashes && end.redis.hashes[KEY].status == Some(SUCCESS) && KEY in end.redis.zset
               && end.sched.Republishing? && end.sched.pc.Resending?
  {
    run := ResultOvertakesVisit(2);
    StartIsInitial(2);
    RetryRuns();
    hide Runs, After, Init;
  }

  const SAVED := Succeeded(2).redis.hashes[KEY]

  /** The succeeded application with its retry going on. */
  function Retrying(attempts: int, published: int, zset: map<Key, int>, pc: RepublishPc): State {
    Succeeded(2).(redis := Redis(map[KEY := SAVED.(attempts := Some(attempts), lastPublishedAt := Some(published))], zset),
                  sched := Republishing(FOUND, 20, pc, []))
  }

  lemma RetryCounts()
    ensures Enabled(Succeeded(2), AGAIN) && Apply(Succeeded(2), AGAIN) == Retrying(2, 10, map[], Stamping)
  {
    RequestIsValid();
    hide ValidRequest;
  }

  lemma RetryStamps()
    ensures var s := Retrying(2, 10, map[], Stamping);
            Enabled(s, AGAIN) && Apply(s, AGAIN) == Retrying(2, 20, map[], Rescoring)
  {
    RequestIsValid();
    hide ValidRequest;
  }

  lemma RetryScores()
    ensures var s := Retrying(2, 20, map[], Rescoring);
            Enabled(s, AGAIN) && Apply(s, AGAIN) == Retrying(2, 20, map[KEY := 20], Resending)
  {
    RequestIsValid();
    hide ValidRequest;
  }

  lemma RetryRuns()
    ensures Runs(Succeeded(2), RETRY)
    ensures var end := After(Succeeded(2), RETRY);
            && KEY in end.redis.hashes && end.redis.hashes[KEY].status == Some(SUCCESS) && KEY in end.redis.zset
            && end.sched.Republishing? && end.sched.pc.Resending?
  {
    hide Runs, After, Succeeded, Enabled, Apply;
    var s := Succeeded(2);
    RetryCounts();
    RetryStamps();
    RetryScores();
    NoSteps(s);
    OneMore(s, [], AGAIN);
    OneMore(s, [] + [AGAIN], AGAIN);
    OneMore(s, [] + [AGAIN] + [AGAIN], AGAIN);
    assert [] + [AGAIN] + [AGAIN] + [AGAIN] == RETRY;
    SavedIsSuccess();
  }

  lemma SavedIsSuccess()
    ensures SAVED.status == Some(SUCCESS)
  {}
}
