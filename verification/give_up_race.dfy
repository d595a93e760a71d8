/**
 * Why agreement is one-sided for a key that was given up: only a give-up can break it, exactly when
 * server-c's row says something else, and a run in which it does: the give-up, decided before
 * server-c had a row, overwrites the SUCCESS that arrived in between.
 */
module GiveUpRace {
  import opened Payloads
  import opened CouponDb
  import opened Redis
  import opened Basics
  import opened System
  import opened SystemProofs
  import opened Scenario
  import opened ResultOffsets
  import opened Outcomes
  import opened FinalOutcomes
  import C = ServerC

  /** The outcome Redis shows, if any, is the one of server-c's row. */
  predicate Exact(s: State, k: Key) {
    k in s.redis.hashes && Terminal(s.redis.hashes[k]) ==> RowMaps(s.c.db.coupons, k, s.redis.hashes[k].status.value)
  }

  /** The unconditional status write of a give-up. */
  predicate WritesGiveUp(s: State, step: Step, k: Key) {
    && step == Recovering(SchedMarkNext) && s.sched.Marking? && s.sched.givingUp
    && s.sched.mark.key == k && s.sched.mark.pc.SettingStatus?
  }

  /** The same state without the memory that k was given up. */
  function Forgetting(s: State, k: Key): State {
    s.(givenUp := s.givenUp - {k})
  }

  lemma ForgettingKeepsInv(s: State, k: Key)
    requires Inv(s) && Exact(s, k)
    ensures Inv(Forgetting(s, k))
  {
    hide C.Inv, EnlistedOk, AcceptsOk, MessagesOk, OriginOk, MarksOk, SchedOk, RowMaps, RowHasCode;
  }

  lemma GiveUpAtItsEnd(s: State, k: Key)
    requires Inv(s) && Enabled(s, Recovering(SchedMarkNext)) && s.sched.mark.key == k && !s.sched.mark.pc.SettingStatus?
    ensures HashOf(Apply(s, Recovering(SchedMarkNext)).redis, k).status == HashOf(s.redis, k).status
    ensures Apply(s, Recovering(SchedMarkNext)).c == s.c
    ensures k in s.redis.hashes
  {
    hide C.Inv, HashesOk, EnlistedOk, AcceptsOk, MessagesOk, OriginOk, MarksOk;
  }

  lemma GiveUpWritesFailed(s: State, step: Step, k: Key)
    requires Enabled(s, step) && WritesGiveUp(s, step, k) && SchedOk(s.c.db.coupons, s.max, s.redis, s.enlisted, s.sched)
    ensures Exact(Apply(s, step), k) <==> RowMaps(s.c.db.coupons, k, FAILED)
  {}

  lemma AcceptForgets(s: State, id: nat, step: AcceptStep, k: Key)
    requires CanAccept(s, id, step)
    ensures CanAccept(Forgetting(s, k), id, step)
    ensures AcceptNext(Forgetting(s, k), id, step) == Forgetting(AcceptNext(s, id, step), k)
  {
    hide HsetnxUserId, HsetPending, Zadd, ValidRequest, Claims;
  }

  lemma MarkingForgets(s: State, id: nat, step: MarkStep, k: Key)
    requires CanMark(s, id, step)
    ensures CanMark(Forgetting(s, k), id, step)
    ensures MarkingNext(Forgetting(s, k), id, step) == Forgetting(MarkingNext(s, id, step), k)
  {
    hide MarkCommand, ValidResult, MarkAfter, MarkOf;
  }

  lemma FetchForgets(s: State, k: Key)
    requires s.sched.Fetching?
    ensures FetchNext(Forgetting(s, k)) == Forgetting(FetchNext(s), k)
  {
    hide ReadPending, Zrem;
  }

  lemma RepublishForgets(s: State, ok: bool, k: Key)
    requires s.sched.Republishing?
    ensures RepublishStep(Forgetting(s, k), ok) == Forgetting(RepublishStep(s, ok), k)
  {
    hide HincrAttempts, HsetLastPublished, Zadd, ValidRequest;
  }

  lemma SchedulerForgets(s: State, step: SchedStep, k: Key)
    requires CanSchedule(s, step) && !(step.SchedMarkNext? && s.sched.givingUp && s.sched.mark.key == k)
    ensures CanSchedule(Forgetting(s, k), step)
    ensures SchedNext(Forgetting(s, k), step) == Forgetting(SchedNext(s, step), k)
  {
    hide MarkCommand, MarkAfter, HasKey, System.Decided, ValidRequest, FetchNext, RepublishStep, Distinct, Back;
    match step
    case SchedMarkNext =>
      if s.sched.givingUp {
        assert (s.givenUp + {s.sched.mark.key}) - {k} == (s.givenUp - {k}) + {s.sched.mark.key};
      }
    case FetchOne => FetchForgets(s, k);
    case RepublishNext(ok) => RepublishForgets(s, ok, k);
    case Sweep(members) =>
    case Visit(row, now) =>
    case ItemFails =>
    case SchedCrashes =>
  }

  lemma OtherStepsForget(s: State, step: Step, k: Key)
    requires Enabled(s, step) && !(step == Recovering(SchedMarkNext) && s.sched.givingUp && s.sched.mark.key == k)
    ensures Enabled(Forgetting(s, k), step)
    ensures Apply(Forgetting(s, k), step) == Forgetting(Apply(s, step), k)
  {
    hide CanAccept, AcceptNext, CanMark, MarkingNext, CanSchedule, SchedNext, C.Enabled, C.Apply;
    match step
    case Server(st) =>
    case Accepting(id, st) => AcceptForgets(s, id, st, k);
    case Consuming(id, st) => MarkingForgets(s, id, st, k);
    case Recovering(st) => SchedulerForgets(s, st, k);
    case LateSend(m) =>
  }

  lemma NotGivenUpIsExact(s: State, k: Key)
    requires Inv(s) && k !in s.givenUp
    ensures Exact(s, k)
  {
    hide C.Inv, EnlistedOk, AcceptsOk, MessagesOk, OriginOk, MarksOk, SchedOk, RowMaps, RowHasCode;
  }

  /**
   * Of all steps of all parties only one can break the agreement of Redis and server-c on a key:
   * the status write of a give-up, and it does so exactly when the key's row does not say failed.
   */
  lemma OnlyAGiveUpBreaksAgreement(s: State, step: Step, k: Key)
    requires Inv(s) && Enabled(s, step) && Exact(s, k)
    ensures Exact(Apply(s, step), k) <==> (WritesGiveUp(s, step, k) ==> RowMaps(s.c.db.coupons, k, FAILED))
  {
    if step == Recovering(SchedMarkNext) && s.sched.Marking? && s.sched.givingUp && s.sched.mark.key == k {
      if WritesGiveUp(s, step, k) {
        GiveUpWritesFailed(s, step, k);
      } else {
        GiveUpAtItsEnd(s, k);
      }
      hide Inv, Enabled, Apply, RowMaps;
    } else {
      ForgettingKeepsInv(s, k);
      OtherStepsForget(s, step, k);
      hide Inv, Enabled, Apply, RowMaps;
      StepKeepsInv(Forgetting(s, k), step);
      NotGivenUpIsExact(Forgetting(Apply(s, step), k), k);
    }
  }

  /**
   * The run, with one attempt: Redis says SUCCESS, as server-c's row does, and one step of the
   * scheduler later it says FAILED, while the row stays as it is.
   */
  lemma GiveUpCanOverwriteSuccess() returns (run: seq<Step>)
    ensures Init(Start(1)) && Runs(Start(1), run)
    ensures var s := After(Start(1), run);
            && KEY in s.redis.hashes && s.redis.hashes[KEY].status == Some(SUCCESS)
            && Enabled(s, Recovering(SchedMarkNext))
            && var end := Apply(s, Recovering(SchedMarkNext));
               && end.redis.hashes[KEY].status == Some(FAILED) && end.redis.hashes[KEY].code == Some("CODE")
               && |end.c.db.coupons| == 1 && end.c.db.coupons[0].status == Success && CouponKey(end.c.db.coupons[0]) == KEY
               && KEY in end.givenUp
  {
    run := ResultOvertakesVisit(1);
    StartIsInitial(1);
    hide Runs, After, Init;
  }

  /** The give-up has gone through, the record is committed and the result marked as sent. */
  const OVERWRITTEN := Succeeded(1).(
    redis := Redis(map[KEY := STORED.(status := Some(FAILED), code := Some("CODE"))], map[]),
    sched := Resting, givenUp := {KEY}, committed := {0},
    c := Succeeded(1).c.(poller := C.Idle, db := ISSUED.(outbox := MarkPublished(ISSUED.outbox, {0})),
                         log := [IssueOp(ATTEMPT), MarkOp({0})]))

  lemma GiveUpGoesThrough(run0: seq<Step>) returns (run: seq<Step>)
    requires Runs(Start(1), run0) && After(Start(1), run0) == Succeeded(1)
    ensures Runs(Start(1), run) && After(Start(1), run) == OVERWRITTEN
  {
    hide Runs, After;
    var mark, commit, publish := Recovering(SchedMarkNext), Consuming(0, Commit), Server(C.Relaying(C.PollMark));
    OneMore(Start(1), run0, mark);
    OneMore(Start(1), run0 + [mark], mark);
    OneMore(Start(1), run0 + [mark] + [mark], commit);
    OneMore(Start(1), run0 + [mark] + [mark] + [commit], publish);
    run := run0 + [mark] + [mark] + [commit] + [publish];
    assert {} + {KEY} == {KEY} && {KEY} + {KEY} == {KEY} && {} + {0} == {0};
    assert [IssueOp(ATTEMPT)] + [MarkOp({0})] == [IssueOp(ATTEMPT), MarkOp({0})];
  }

  lemma OverwrittenIsAbandoned()
    ensures |OVERWRITTEN.c.db.coupons| == 1 && OVERWRITTEN.c.db.coupons[0].status == Success
    ensures CouponKey(OVERWRITTEN.c.db.coupons[0]) == KEY
    ensures Abandoned(OVERWRITTEN, 0)
  {}

  /** And in that run the give-up is final: server-c's row says success, and Redis says FAILED for ever. */
  lemma TheOverwriteIsFinal() returns (run: seq<Step>)
    ensures Init(Start(1)) && Runs(Start(1), run)
    ensures var s := After(Start(1), run);
            && |s.c.db.coupons| == 1 && s.c.db.coupons[0].status == Success && CouponKey(s.c.db.coupons[0]) == KEY
            && forall later | Runs(s, later) :: HashOf(After(s, later).redis, KEY).status == Some(FAILED)
  {
    run := ResultOvertakesVisit(1);
    run := GiveUpGoesThrough(run);
    StartIsInitial(1);
    InitHasInv(Start(1));
    StartHasOffsets();
    hide Inv, OffsetsOk, Runs, After, Init, Abandoned, OVERWRITTEN, Start, HashOf;
    RunKeepsInv(Start(1), run);
    RunKeepsOffsets(Start(1), run);
    OverwrittenIsAbandoned();
    forall later | Runs(OVERWRITTEN, later) ensures HashOf(After(OVERWRITTEN, later).redis, KEY).status == Some(FAILED) {
      StaysFailed(OVERWRITTEN, later, 0);
    }
  }

  lemma StartHasOffsets()
    ensures OffsetsOk(Start(1))
  {}
}
