/**
 * Every row and every result goes back to one request: server-c's to a committed run of the issue
 * transaction, and in the whole system to a message on the request topic and the stored application.
 */
module IssuedRows {
  import opened Payloads
  import opened CouponDb
  import opened Redis
  import opened System
  import opened Basics
  import opened SystemProofs
  import C = ServerC
  import CP = ServerCProofs
  import CT = ServerCTheorems
  import O = Outcomes

  /** Row i and its result are those of a committed run. */
  ghost predicate GoesBack(c: C.State, i: nat)
    requires i < |c.db.coupons| && i < |c.db.outbox|
  {
    exists a :: IssueOp(a) in c.log && IsIssueOf(c.events, a, c.db.coupons[i], c.db.outbox[i].payload)
  }

  ghost predicate AllGoBack(c: C.State) {
    |c.db.outbox| == |c.db.coupons| && forall i | 0 <= i < |c.db.coupons| :: GoesBack(c, i)
  }

  lemma StartGoesBack(c: C.State)
    requires C.Init(c)
    ensures AllGoBack(c)
  {}

  /** Tables that only had rows used and records marked. */
  predicate SameRows(c: C.State, c': C.State) {
    && c'.events == c.events && c.log <= c'.log
    && |c'.db.coupons| == |c.db.coupons| && |c'.db.outbox| == |c.db.outbox|
    && (forall i | 0 <= i < |c.db.outbox| :: c'.db.outbox[i].payload == c.db.outbox[i].payload)
  }

  lemma OtherStepsKeepRows(c: C.State, step: C.Step)
    requires C.Enabled(c, step)
    requires step.Issuing? ==> !(step.issue.Commit? && c.txs[step.id].pc.Appended?) && !step.issue.CommitThenCrash?
    ensures SameRows(c, C.Apply(c, step))
  {
    hide C.CanIssue, C.CanCall, C.CanPoll, C.IssueNext, C.CallNext, C.PollNext;
    match step
    case Issuing(id, st) => IssuesKeepRows(c, id, st);
    case Redeeming(id, st) => CallsKeepRows(c, id, st);
    case Relaying(st) => PollsKeepRows(c, st);
  }

  lemma IssuesKeepRows(c: C.State, id: nat, step: C.IssueStep)
    requires C.CanIssue(c, id, step) && !(step.Commit? && c.txs[id].pc.Appended?) && !step.CommitThenCrash?
    ensures SameRows(c, C.IssueNext(c, id, step))
  {
    hide HasKey, HasCode, C.CodeFree, C.KeyFree, C.StockFree, ValidRequest, CodeFor;
  }

  lemma CallsKeepRows(c: C.State, id: nat, step: C.CallStep)
    requires C.CanCall(c, id, step)
    ensures SameRows(c, C.CallNext(c, id, step))
  {
    hide C.FindCode, C.CouponFree;
  }

  lemma PollsKeepRows(c: C.State, step: C.PollStep)
    requires C.CanPoll(c, step)
    ensures SameRows(c, C.PollNext(c, step))
  {}

  lemma SameRowsGoBack(c: C.State, c': C.State)
    requires AllGoBack(c) && SameRows(c, c') && CT.RowsExtend(c.db.coupons, c'.db.coupons)
    ensures AllGoBack(c')
  {
    forall i | 0 <= i < |c'.db.coupons| ensures GoesBack(c', i) {
      assert GoesBack(c, i);
      var a :| IssueOp(a) in c.log && IsIssueOf(c.events, a, c.db.coupons[i], c.db.outbox[i].payload);
      assert IssueOp(a) in c'.log;
      UsedIsStillIssued(c.events, a, c.db.coupons[i], c'.db.coupons[i], c.db.outbox[i].payload);
    }
  }

  lemma UsedIsStillIssued(events: map<int, Event>, a: Attempt, row: Coupon, row': Coupon, p: ResultPayload)
    requires IsIssueOf(events, a, row, p) && CT.RowsExtend([row], [row'])
    ensures IsIssueOf(events, a, row', p)
  {
    assert [row][0] == row && [row'][0] == row' && CouponKey(row') == CouponKey(row);
  }

  /** A commit adds the row and the result of its run. */
  lemma CommitGoesBack(c: C.State, id: nat, step: C.IssueStep)
    requires C.Inv(c) && AllGoBack(c) && C.CanIssue(c, id, step)
    requires (step.Commit? && c.txs[id].pc.Appended?) || step.CommitThenCrash?
    ensures AllGoBack(C.IssueNext(c, id, step))
  {
    var tx := c.txs[id];
    var c' := C.IssueNext(c, id, step);
    assert C.TxOk(c.events, c.db, tx);
    CommitShape(c, id, step);
    NewRowIsIssued(c.events, c.db, tx);
    hide C.Inv, C.CanIssue, C.IssueNext, C.TxOk, CouponFor, ToResultPayload, IsIssueOf;
    forall i | 0 <= i < |c'.db.coupons| ensures GoesBack(c', i) {
      if i < |c.db.coupons| {
        assert GoesBack(c, i);
        var a :| IssueOp(a) in c.log && IsIssueOf(c.events, a, c.db.coupons[i], c.db.outbox[i].payload);
        assert IssueOp(a) in c'.log;
      } else {
        assert IssueOp(tx.a) in c'.log;
      }
    }
  }

  lemma CommitShape(c: C.State, id: nat, step: C.IssueStep)
    requires C.CanIssue(c, id, step) && ((step.Commit? && c.txs[id].pc.Appended?) || step.CommitThenCrash?)
    ensures var tx := c.txs[id]; var c' := C.IssueNext(c, id, step);
            && tx.pc.Appended? && c'.events == c.events && c'.log == c.log + [IssueOp(tx.a)]
            && c'.db.coupons == c.db.coupons + [CouponFor(tx.a, tx.pc.status)]
            && c'.db.outbox == c.db.outbox + [OutboxRow(ToResultPayload(tx.a, tx.pc.status), false)]
  {}

  lemma NewRowIsIssued(events: map<int, Event>, db: Db, tx: C.Tx)
    requires tx.pc.Appended? && C.TxOk(events, db, tx)
    ensures IsIssueOf(events, tx.a, CouponFor(tx.a, tx.pc.status), ToResultPayload(tx.a, tx.pc.status))
  {}

  lemma ServerStepGoesBack(c: C.State, step: C.Step)
    requires C.Inv(c) && AllGoBack(c) && C.Enabled(c, step)
    ensures AllGoBack(C.Apply(c, step))
  {
    hide C.Inv, AllGoBack, C.CanCall, C.CanPoll, C.IssueNext, C.CallNext, C.PollNext, CT.RowsExtend, SameRows;
    if step.Issuing? && ((step.issue.Commit? && c.txs[step.id].pc.Appended?) || step.issue.CommitThenCrash?) {
      CommitGoesBack(c, step.id, step.issue);
    } else {
      OtherStepsKeepRows(c, step);
      CT.StepExtendsRows(c, step);
      SameRowsGoBack(c, C.Apply(c, step));
    }
  }

  lemma {:induction false} ServerRunGoesBack(c: C.State, steps: seq<C.Step>)
    requires C.Inv(c) && AllGoBack(c) && C.Runs(c, steps)
    ensures AllGoBack(C.After(c, steps))
    decreases steps
  {
    hide C.Inv, AllGoBack, C.Enabled, C.Apply;
    if steps != [] {
      ServerStepGoesBack(c, steps[0]);
      CP.StepKeepsInv(c, steps[0]);
      ServerRunGoesBack(C.Apply(c, steps[0]), steps[1..]);
    }
  }

  /**
   * After any run of server-c: every row is the row of a committed run of its request, failed exactly
   * when the clock of that run was outside the event's time, and record i tells its result.
   */
  lemma EveryRowGoesBackToARequest(c: C.State, steps: seq<C.Step>, i: nat) returns (a: Attempt)
    requires C.Init(c) && C.Runs(c, steps) && i < |C.After(c, steps).db.coupons|
    ensures var c' := C.After(c, steps);
            && IssueOp(a) in c'.log && i < |c'.db.outbox|
            && IsIssueOf(c'.events, a, c'.db.coupons[i], c'.db.outbox[i].payload)
  {
    CP.InitHasInv(c);
    StartGoesBack(c);
    ServerRunGoesBack(c, steps);
    hide C.Init, C.Runs, C.After;
    var c' := C.After(c, steps);
    assert GoesBack(c', i);
    a :| IssueOp(a) in c'.log && IsIssueOf(c'.events, a, c'.db.coupons[i], c'.db.outbox[i].payload);
  }

  /** A row is failed exactly when it was issued before its event began or after it had ended. */
  lemma FailedMeansOutsideTheEvent(c: C.State, steps: seq<C.Step>, i: nat)
    requires C.Init(c) && C.Runs(c, steps) && i < |C.After(c, steps).db.coupons|
    ensures var row := C.After(c, steps).db.coupons[i];
            && row.eventId in c.events
            && (row.status == Failed <==>
                  row.issuedAt < c.events[row.eventId].startedAt || row.issuedAt > c.events[row.eventId].endedAt)
  {
    var a := EveryRowGoesBackToARequest(c, steps, i);
    CT.RunLogs(c, steps);
  }

  // ---------------------------------------------------------------- the whole system

  /** Whatever server-c committed was asked for. */
  ghost predicate LogIsAsked(s: State) {
    forall a | IssueOp(a) in s.c.log :: a.req in s.requests
  }

  lemma LogGrowsByItsTx(c: C.State, step: C.Step)
    requires C.Enabled(c, step)
    ensures forall a | IssueOp(a) in C.Apply(c, step).log ::
              IssueOp(a) in c.log || (step.Issuing? && step.id in c.txs && a == c.txs[step.id].a)
  {
    CT.StepLogs(c, step);
    hide C.Apply, C.CanCall, C.CanPoll, CT.Commits;
  }

  lemma RequestsOnlyGrow(s: State, step: Step)
    requires Enabled(s, step) && !step.Server?
    ensures Apply(s, step).c == s.c && s.requests <= Apply(s, step).requests
  {
    hide CanAccept, AcceptNext, CanMark, MarkingNext, CanSchedule, SchedNext;
    match step
    case Accepting(id, st) => AcceptsAsk(s, id, st);
    case Consuming(j, st) => ConsumersAskNothing(s, j, st);
    case Recovering(st) => SchedulerAsks(s, st);
    case LateSend(m) =>
  }

  lemma AcceptsAsk(s: State, id: nat, step: AcceptStep)
    requires CanAccept(s, id, step)
    ensures AcceptNext(s, id, step).c == s.c && s.requests <= AcceptNext(s, id, step).requests
  {
    hide ValidRequest, HsetPending, HsetnxUserId, Zadd, Claims;
  }

  lemma ConsumersAskNothing(s: State, j: nat, step: MarkStep)
    requires CanMark(s, j, step)
    ensures MarkingNext(s, j, step).c == s.c && MarkingNext(s, j, step).requests == s.requests
  {
    hide ValidResult, MarkCommand, MarkOf, MarkAfter;
  }

  lemma SchedulerAsks(s: State, step: SchedStep)
    requires CanSchedule(s, step)
    ensures SchedNext(s, step).c == s.c && s.requests <= SchedNext(s, step).requests
  {
    hide ValidRequest, MarkCommand, HasKey, ReadPending, System.Decided, Back, RebuiltPayload, Distinct;
    hide HincrAttempts, HsetLastPublished, Zadd, Zrem;
  }

  lemma StepIsAsked(s: State, step: Step)
    requires Inv(s) && LogIsAsked(s) && Enabled(s, step)
    ensures LogIsAsked(Apply(s, step))
  {
    if step.Server? {
      O.ServerLeavesKey(s, step.step);
      assert OriginOk(s.c, s.requests);
      hide Inv;
      LogGrowsByItsTx(s.c, step.step);
      hide C.Apply, C.Enabled;
    } else {
      RequestsOnlyGrow(s, step);
      hide Inv, Enabled, Apply;
    }
  }

  lemma StepGoesBack(s: State, step: Step)
    requires Inv(s) && AllGoBack(s.c) && Enabled(s, step)
    ensures AllGoBack(Apply(s, step).c)
  {
    O.InvHasServer(s);
    if step.Server? {
      O.ServerLeavesKey(s, step.step);
      ServerStepGoesBack(s.c, step.step);
    } else {
      RequestsOnlyGrow(s, step);
    }
    hide Inv, C.Inv, Apply, AllGoBack, C.Apply;
  }

  lemma {:induction false} RunGoesBack(s: State, steps: seq<Step>)
    requires Inv(s) && AllGoBack(s.c) && LogIsAsked(s) && Runs(s, steps)
    ensures AllGoBack(After(s, steps).c) && LogIsAsked(After(s, steps))
    decreases steps
  {
    hide Inv, AllGoBack, LogIsAsked, Enabled, Apply;
    if steps != [] {
      StepGoesBack(s, steps[0]);
      StepIsAsked(s, steps[0]);
      StepKeepsInv(s, steps[0]);
      RunGoesBack(Apply(s, steps[0]), steps[1..]);
    }
  }

  /**
   * In every reachable state each outbox record carries the request id, user, event and coupon type
   * of a message on the request topic, which are those stored for the application in Redis.
   */
  lemma ResultsCarryTheirRequestId(s: State, steps: seq<Step>, i: nat) returns (m: RequestPayload)
    requires Init(s) && Runs(s, steps) && i < |After(s, steps).c.db.outbox|
    ensures var s' := After(s, steps); var p := s'.c.db.outbox[i].payload; var k := Key(p.userId, p.couponTypeId);
            && m in s'.requests && m.userId == p.userId && m.couponTypeId == p.couponTypeId
            && p.requestId == m.requestId && p.eventId == m.eventId
            && k in s'.redis.hashes && s'.redis.hashes[k].requestId == p.requestId
            && s'.redis.hashes[k].eventId == Some(p.eventId)
  {
    InitHasInv(s);
    RunKeepsInv(s, steps);
    StartGoesBack(s.c);
    RunGoesBack(s, steps);
    hide Init, Runs, After;
    var s' := After(s, steps);
    m := RecordIsAsked(s', i);
    MessageIsStored(s', m);
  }

  lemma RecordIsAsked(s: State, i: nat) returns (m: RequestPayload)
    requires AllGoBack(s.c) && LogIsAsked(s) && i < |s.c.db.outbox|
    ensures var p := s.c.db.outbox[i].payload;
            && m in s.requests && m.userId == p.userId && m.couponTypeId == p.couponTypeId
            && p.requestId == m.requestId && p.eventId == m.eventId
  {
    assert GoesBack(s.c, i);
    var a :| IssueOp(a) in s.c.log && IsIssueOf(s.c.events, a, s.c.db.coupons[i], s.c.db.outbox[i].payload);
    m := a.req;
  }

  /** What a message on the request topic says is what is stored. */
  lemma MessageIsStored(s: State, m: RequestPayload)
    requires Inv(s) && m in s.requests
    ensures var k := Key(m.userId, m.couponTypeId);
            && k in s.redis.hashes && m.requestId.Some? && m.requestedAt.Some?
            && s.redis.hashes[k].requestId == m.requestId && s.redis.hashes[k].eventId == Some(m.eventId)
            && s.redis.hashes[k].createdAt == m.requestedAt
  {
    assert MessageOk(s.redis, s.enlisted, m);
  }

  /** And so does every message on the result topic. */
  lemma TopicCarriesRequestIds(s: State, steps: seq<Step>, p: ResultPayload) returns (m: RequestPayload)
    requires Init(s) && Runs(s, steps) && p in After(s, steps).c.topic
    ensures var s' := After(s, steps); var k := Key(p.userId, p.couponTypeId);
            && m in s'.requests && m.userId == p.userId && m.couponTypeId == p.couponTypeId
            && p.requestId == m.requestId && p.eventId == m.eventId
            && k in s'.redis.hashes && s'.redis.hashes[k].requestId == p.requestId
  {
    InitHasInv(s);
    RunKeepsInv(s, steps);
    var i := TopicIsOutbox(After(s, steps), p);
    m := ResultsCarryTheirRequestId(s, steps, i);
  }

  lemma TopicIsOutbox(s: State, p: ResultPayload) returns (i: nat)
    requires Inv(s) && p in s.c.topic
    ensures i < |s.c.db.outbox| && s.c.db.outbox[i].payload == p
  {
    assert C.HasPayload(s.c.db.outbox, p);
    i :| i < |s.c.db.outbox| && s.c.db.outbox[i].payload == p;
  }

  /** Every message on the request topic says what is stored for its application in Redis. */
  lemma MessagesSayWhatIsStored(s: State, steps: seq<Step>, m: RequestPayload)
    requires Init(s) && Runs(s, steps) && m in After(s, steps).requests
    ensures var s' := After(s, steps); var k := Key(m.userId, m.couponTypeId);
            && k in s'.redis.hashes && m.requestId.Some? && m.requestedAt.Some?
            && s'.redis.hashes[k].requestId == m.requestId && s'.redis.hashes[k].eventId == Some(m.eventId)
            && s'.redis.hashes[k].createdAt == m.requestedAt
  {
    InitHasInv(s);
    RunKeepsInv(s, steps);
    MessageIsStored(After(s, steps), m);
  }
}
