/**
 * The machine does what the objects do: each party's steps, taken in a row with nothing failing and
 * nobody in between, come to what its method does as a whole.
 */
module AloneRuns {
  import opened Payloads
  import opened CouponDb
  import opened Redis
  import opened Basics
  import opened Recovery
  import opened System
  import opened SystemProofs
  import opened PendingStore
  import opened SchedulerProgress
  import C = ServerC
  import CP = ServerCProofs

  // ---------------------------------------------------------------- server-c's transaction

  /** The statement a transaction comes to next. */
  function NextStatement(pc: C.Pc): C.IssueStep {
    match pc
    case Begun => C.ExistsCheck
    case Short => C.Commit
    case Fresh => C.EventCheck
    case WantStock => C.LockStock
    case Locked(_) => C.Decrement
    case Insert(_, _) => C.InsertCode
    case Coded(_, _) => C.InsertKey
    case Inserted(_, _) => C.AppendOutbox
    case Appended(_, _) => C.Commit
    case PostRead => C.ReadStock
    case PostSet => C.SetCache
  }

  function StatementsLeft(pc: C.Pc): nat {
    match pc
    case Begun => 9
    case Fresh => 8
    case WantStock => 7
    case Locked(_) => 6
    case Insert(_, _) => 5
    case Coded(_, _) => 4
    case Inserted(_, _) => 3
    case Appended(_, _) => 2
    case Short => 1
    case _ => 0
  }

  /** The transaction is over, or waits only for its check after the commit. */
  predicate IsOver(c: C.State, id: nat) {
    id !in c.txs || c.txs[id].pc == C.PostRead || c.txs[id].pc == C.PostSet
  }

  lemma OneStatement(c: C.State, id: nat)
    requires C.Inv(c) && c.txs.Keys == {id} && !IsOver(c, id)
    ensures var st := NextStatement(c.txs[id].pc); C.CanIssue(c, id, st) && MovesOn(c, C.IssueNext(c, id, st), id)
  {
    var tx := c.txs[id];
    assert C.TxOk(c.events, c.db, tx);
    assert forall j | j in c.txs :: j == id;
    hide C.Inv;
    StatementCan(c, id);
    match tx.pc
    case Appended(_, _) => CP.CommitIsIssue(c.events, c.db, tx);
    case _ => OneStatementEffect(c, id);
  }

  lemma StatementCan(c: C.State, id: nat)
    requires c.txs.Keys == {id} && !IsOver(c, id)
    ensures C.CanIssue(c, id, NextStatement(c.txs[id].pc))
  {
    assert forall j | j in c.txs :: j == id;
    hide CodeFor;
  }

  /** What a statement does to a transaction that is alone. */
  predicate MovesOn(c: C.State, c': C.State, id: nat)
    requires id in c.txs
  {
    && c'.events == c.events
    && (IsOver(c', id) ==> c'.db == Issue(c.events, c.db, c.txs[id].a))
    && (!IsOver(c', id) ==>
          && c'.txs.Keys == {id} && c'.db == c.db && c'.txs[id].a == c.txs[id].a
          && StatementsLeft(c'.txs[id].pc) < StatementsLeft(c.txs[id].pc))
  }

  lemma OneStatementEffect(c: C.State, id: nat)
    requires c.txs.Keys == {id} && !IsOver(c, id) && !c.txs[id].pc.Appended?
    requires C.TxOk(c.events, c.db, c.txs[id]) && C.CanIssue(c, id, NextStatement(c.txs[id].pc))
    ensures MovesOn(c, C.IssueNext(c, id, NextStatement(c.txs[id].pc)), id)
  {
    var pc := c.txs[id].pc;
    hide MovesOn, C.TxOk, C.CanIssue, C.IssueNext, Issue;
    if pc.Insert? || pc.Coded? || pc.Inserted? { InsertEffect(c, id); } else { DecisionEffect(c, id); }
  }

  lemma DecisionEffect(c: C.State, id: nat)
    requires c.txs.Keys == {id} && !IsOver(c, id)
    requires var pc := c.txs[id].pc; pc.Begun? || pc.Short? || pc.Fresh? || pc.WantStock? || pc.Locked?
    requires C.TxOk(c.events, c.db, c.txs[id]) && C.CanIssue(c, id, NextStatement(c.txs[id].pc))
    ensures MovesOn(c, C.IssueNext(c, id, NextStatement(c.txs[id].pc)), id)
  {
    hide CodeFor, HasKey, HasCode, Write, ValidRequest;
  }

  lemma InsertEffect(c: C.State, id: nat)
    requires c.txs.Keys == {id} && (c.txs[id].pc.Insert? || c.txs[id].pc.Coded? || c.txs[id].pc.Inserted?)
    requires C.TxOk(c.events, c.db, c.txs[id]) && C.CanIssue(c, id, NextStatement(c.txs[id].pc))
    ensures MovesOn(c, C.IssueNext(c, id, NextStatement(c.txs[id].pc)), id)
  {
    hide CodeFor, HasKey, HasCode, Write, ValidRequest;
  }

  /**
   * A transaction that is alone runs to its end, and what it leaves in the tables is what one issue
   * of its request does.
   */
  lemma {:induction false} AnIssueAlone(c: C.State, id: nat) returns (steps: seq<C.Step>)
    requires C.Inv(c) && c.txs.Keys == {id} && !IsOver(c, id)
    ensures C.Runs(c, steps) && IsOver(C.After(c, steps), id)
    ensures C.After(c, steps).db == Issue(c.events, c.db, c.txs[id].a)
    decreases StatementsLeft(c.txs[id].pc)
  {
    OneStatement(c, id);
    var step := C.Issuing(id, NextStatement(c.txs[id].pc));
    CP.StepKeepsInv(c, step);
    var c' := C.Apply(c, step);
    assert C.Enabled(c, step) && c' == C.IssueNext(c, id, NextStatement(c.txs[id].pc));
    hide C.Inv, C.Enabled, C.Apply, C.IssueNext, C.CanIssue, Issue;
    var rest: seq<C.Step> := [];
    if !IsOver(c', id) { rest := AnIssueAlone(c', id); }
    steps := [step] + rest;
    assert steps[1..] == rest;
    assert rest == [] ==> C.Runs(c', rest) && C.After(c', rest) == c';
  }

  // ---------------------------------------------------------------- runs of the system

  /** steps lead from s to s'. */
  ghost predicate To(s: State, steps: seq<Step>, s': State)
    decreases steps
  {
    if steps == [] then s == s'
    else Enabled(s, steps[0]) && To(Apply(s, steps[0]), steps[1..], s')
  }

  lemma ToNowhere(s: State)
    ensures To(s, [], s)
  {}

  lemma ToByOne(s: State, step: Step, rest: seq<Step>, s': State)
    requires Enabled(s, step) && To(Apply(s, step), rest, s')
    ensures To(s, [step] + rest, s')
  {
    hide Enabled, Apply;
    assert ([step] + rest)[1..] == rest;
  }

  lemma {:induction false} ToOn(s: State, xs: seq<Step>, mid: State, ys: seq<Step>, s': State)
    requires To(s, xs, mid) && To(mid, ys, s')
    ensures To(s, xs + ys, s')
    decreases xs
  {
    hide Enabled, Apply;
    if xs == [] {
      assert xs + ys == ys;
    } else {
      ToOn(Apply(s, xs[0]), xs[1..], mid, ys, s');
      ToByOne(s, xs[0], xs[1..] + ys, s');
      assert [xs[0]] + (xs[1..] + ys) == xs + ys;
    }
  }

  lemma {:induction false} ToIsARun(s: State, steps: seq<Step>, s': State)
    requires To(s, steps, s')
    ensures Runs(s, steps) && After(s, steps) == s'
    decreases steps
  {
    hide Enabled, Apply;
    if steps != [] { ToIsARun(Apply(s, steps[0]), steps[1..], s'); } else { NoSteps(s); }
  }

  // ---------------------------------------------------------------- accept

  /** What an accept that takes its key leaves, when it is alone. */
  function Accepted(s: State, k: Key, requestId: string, eventId: int, now: int): State {
    var m := RequestPayload(Some(requestId), k.userId, eventId, k.couponTypeId, Some(now));
    s.(redis := SavedPending(s.redis, k, requestId, eventId, now),
       requests := s.requests + if ValidRequest(m) then [m] else [],
       enlisted := s.enlisted + {k}, accepted := s.accepted + {k})
  }

  /** A second application changes nothing; a first one is stored, enlisted and sent when it passes its check. */
  lemma AnAcceptAlone(s: State, id: nat, k: Key, requestId: string, eventId: int, now: int) returns (steps: seq<Step>)
    requires id !in s.accepts
    ensures !Claims(s.redis, k) ==> To(s, steps, s) && steps == [Accepting(id, Claim(k, requestId, eventId, now))]
    ensures Claims(s.redis, k) ==> To(s, steps, Accepted(s, k, requestId, eventId, now))
  {
    var m := FirstPayload(k, requestId, eventId, now);
    var claim, publish := Accepting(id, Claim(k, requestId, eventId, now)), Accepting(id, Publish(ValidRequest(m)));
    if !Claims(s.redis, k) {
      ToNowhere(s);
      ToByOne(s, claim, [], s);
      steps := [claim] + [];
    } else {
      ClaimAndFill(s, id, k, requestId, eventId, now);
      EnlistAndPublish(s, id, k, requestId, eventId, now);
      hide Enabled, Apply, Accepted, Claimed, FilledIn, EnlistedIn;
      var end := Accepted(s, k, requestId, eventId, now);
      ToNowhere(end);
      ToByOne(EnlistedIn(s, id, k, requestId, eventId, now), publish, [], end);
      ToByOne(FilledIn(s, id, k, requestId, eventId, now), Accepting(id, Enlist), [publish] + [], end);
      ToByOne(Claimed(s, id, k, requestId, eventId, now), Accepting(id, Fill),
              [Accepting(id, Enlist)] + ([publish] + []), end);
      steps := [claim] + ([Accepting(id, Fill)] + ([Accepting(id, Enlist)] + ([publish] + [])));
      ToByOne(s, claim, [Accepting(id, Fill)] + ([Accepting(id, Enlist)] + ([publish] + [])), end);
    }
  }

  function Claimed(s: State, id: nat, k: Key, requestId: string, eventId: int, now: int): State {
    s.(redis := SavedUpTo(s.redis, k, requestId, eventId, now, 1),
       accepts := s.accepts[id := Accept(k, requestId, eventId, now, Filling)])
  }

  function FilledIn(s: State, id: nat, k: Key, requestId: string, eventId: int, now: int): State {
    s.(redis := SavedUpTo(s.redis, k, requestId, eventId, now, 2),
       accepts := s.accepts[id := Accept(k, requestId, eventId, now, Enlisting)])
  }

  function EnlistedIn(s: State, id: nat, k: Key, requestId: string, eventId: int, now: int): State {
    s.(redis := SavedPending(s.redis, k, requestId, eventId, now), enlisted := s.enlisted + {k},
       accepts := s.accepts[id := Accept(k, requestId, eventId, now, Publishing)])
  }

  lemma ClaimAndFill(s: State, id: nat, k: Key, requestId: string, eventId: int, now: int)
    requires id !in s.accepts && Claims(s.redis, k)
    ensures var claim := Accepting(id, Claim(k, requestId, eventId, now));
            && Enabled(s, claim) && Apply(s, claim) == Claimed(s, id, k, requestId, eventId, now)
            && var s1 := Claimed(s, id, k, requestId, eventId, now);
               && Enabled(s1, Accepting(id, Fill))
               && Apply(s1, Accepting(id, Fill)) == FilledIn(s, id, k, requestId, eventId, now)
  {
    hide HsetnxUserId, HsetPending, Zadd, Claims;
    assert Claimed(s, id, k, requestId, eventId, now).accepts[id := Accept(k, requestId, eventId, now, Enlisting)]
        == FilledIn(s, id, k, requestId, eventId, now).accepts;
  }

  lemma EnlistAndPublish(s: State, id: nat, k: Key, requestId: string, eventId: int, now: int)
    requires id !in s.accepts && Claims(s.redis, k)
    ensures var m := RequestPayload(Some(requestId), k.userId, eventId, k.couponTypeId, Some(now));
            var s2, s3 := FilledIn(s, id, k, requestId, eventId, now), EnlistedIn(s, id, k, requestId, eventId, now);
            var publish := Accepting(id, Publish(ValidRequest(m)));
            && Enabled(s2, Accepting(id, Enlist)) && Apply(s2, Accepting(id, Enlist)) == s3
            && Enabled(s3, publish) && Apply(s3, publish) == Accepted(s, k, requestId, eventId, now)
  {
    hide HsetnxUserId, HsetPending, Zadd, Claims, ValidRequest;
    var s2, s3 := FilledIn(s, id, k, requestId, eventId, now), EnlistedIn(s, id, k, requestId, eventId, now);
    assert s2.accepts[id := Accept(k, requestId, eventId, now, Publishing)] == s3.accepts;
    assert C.Without(s3.accepts, id) == s.accepts;
    NotSent(s, FirstPayload(k, requestId, eventId, now));
  }

  /** A message that fails its check is not sent at all. */
  lemma NotSent(s: State, m: RequestPayload)
    ensures !ValidRequest(m) ==> Published(s, m, false) == s && s.requests + [] == s.requests
  {}

  // ---------------------------------------------------------------- a result

  /** What a result leaves when its markResult is alone. */
  function ResultWritten(s: State, j: nat): State
    requires j < |s.c.topic| && ValidResult(s.c.topic[j])
  {
    var m := s.c.topic[j];
    s.(redis := MarkedUpTo(s.redis, ResultKey(m), MapResultStatus(m.status.value), m.couponCode, ALL_COMMANDS),
       resolved := s.resolved + {j})
  }

  function WithMark(s: State, j: nat, m: Mark, cut: nat): State {
    s.(marks := s.marks[j := m], redis := MarkedUpTo(s.redis, m.key, m.status, m.code, cut))
  }

  lemma MarkSteps(s: State, j: nat, m: Mark)
    requires j !in s.marks && m.pc.SettingStatus?
    ensures var step := Consuming(j, MarkNext); var after := if m.code.Some? then SettingCode else Removing;
            var s0, s1 := WithMark(s, j, m, 0), WithMark(s, j, m.(pc := after), 1);
            && Enabled(s0, step) && Apply(s0, step) == s1
            && (m.code.Some? ==> Enabled(s1, step) && Apply(s1, step) == WithMark(s, j, m.(pc := Removing), 2))
  {
    hide HsetStatus, HsetCode, Zrem;
    assert s.marks[j := m][j := m.(pc := Removing)] == s.marks[j := m.(pc := Removing)];
    assert s.marks[j := m][j := m.(pc := SettingCode)] == s.marks[j := m.(pc := SettingCode)];
    assert s.marks[j := m.(pc := SettingCode)][j := m.(pc := Removing)] == s.marks[j := m.(pc := Removing)];
  }

  lemma LastMarkStep(s: State, j: nat, m: Mark, cut: nat)
    requires j !in s.marks && m.pc.Removing? && (cut == 2 || (cut == 1 && m.code.None?))
    ensures var step := Consuming(j, MarkNext); var s0 := WithMark(s, j, m, cut);
            && Enabled(s0, step)
            && Apply(s0, step) == s.(redis := MarkedUpTo(s.redis, m.key, m.status, m.code, ALL_COMMANDS),
                                     resolved := s.resolved + {j})
  {
    hide HsetStatus, HsetCode, Zrem;
    assert C.Without(s.marks[j := m], j) == s.marks;
  }

  /** A record that is taken has its result written: status, code, and off the set. */
  lemma AResultAlone(s: State, j: nat) returns (steps: seq<Step>)
    requires j !in s.marks && j !in s.resolved && j < |s.c.topic| && ValidResult(s.c.topic[j])
    ensures To(s, steps, ResultWritten(s, j))
  {
    var m := MarkOf(s.c.topic[j]);
    var deliver, next := Consuming(j, Deliver), Consuming(j, MarkNext);
    var end := ResultWritten(s, j);
    assert Enabled(s, deliver) && Apply(s, deliver) == WithMark(s, j, m, 0);
    MarkSteps(s, j, m);
    ToNowhere(end);
    if m.code.Some? {
      LastMarkStep(s, j, m.(pc := Removing), 2);
      hide Enabled, Apply, WithMark, ResultWritten, MarkedUpTo, ValidResult;
      ToByOne(WithMark(s, j, m.(pc := Removing), 2), next, [], end);
      ToByOne(WithMark(s, j, m.(pc := SettingCode), 1), next, [next] + [], end);
      steps := [next] + ([next] + ([next] + []));
      ToByOne(WithMark(s, j, m, 0), next, [next] + ([next] + []), end);
    } else {
      LastMarkStep(s, j, m.(pc := Removing), 1);
      hide Enabled, Apply, WithMark, ResultWritten, MarkedUpTo, ValidResult;
      ToByOne(WithMark(s, j, m.(pc := Removing), 1), next, [], end);
      steps := [next] + ([next] + []);
      ToByOne(WithMark(s, j, m, 0), next, [next] + [], end);
    }
    ToByOne(s, deliver, steps, end);
    steps := [deliver] + steps;
  }

  // ---------------------------------------------------------------- one visit

  /** The state with the scheduler's mark at this point, cut commands done. */
  function SchedMarked(s: State, m: Mark, givingUp: bool, rest: seq<PendingIssue>, cut: nat): State {
    s.(redis := MarkedUpTo(s.redis, m.key, m.status, m.code, cut), sched := Marking(m, givingUp, rest),
       givenUp := if givingUp && cut > 0 then s.givenUp + {m.key} else s.givenUp)
  }

  function SchedMarkDone(s: State, m: Mark, givingUp: bool, rest: seq<PendingIssue>): State {
    s.(redis := MarkedUpTo(s.redis, m.key, m.status, m.code, ALL_COMMANDS), sched := Back(rest),
       givenUp := if givingUp then s.givenUp + {m.key} else s.givenUp)
  }

  lemma SchedMarkSteps(s: State, m: Mark, givingUp: bool, rest: seq<PendingIssue>)
    requires m.pc.SettingStatus?
    ensures var step := Recovering(SchedMarkNext); var after := if m.code.Some? then SettingCode else Removing;
            var s0, s1 := SchedMarked(s, m, givingUp, rest, 0), SchedMarked(s, m.(pc := after), givingUp, rest, 1);
            && Enabled(s0, step) && Apply(s0, step) == s1
            && (m.code.Some? ==>
                  Enabled(s1, step) && Apply(s1, step) == SchedMarked(s, m.(pc := Removing), givingUp, rest, 2))
  {
    hide HsetStatus, HsetCode, Zrem, Back;
    assert s.givenUp + {m.key} + {m.key} == s.givenUp + {m.key};
  }

  lemma LastSchedMarkStep(s: State, m: Mark, givingUp: bool, rest: seq<PendingIssue>, cut: nat)
    requires m.pc.Removing? && (cut == 2 || (cut == 1 && m.code.None?))
    ensures var step := Recovering(SchedMarkNext); var s0 := SchedMarked(s, m, givingUp, rest, cut);
            Enabled(s0, step) && Apply(s0, step) == SchedMarkDone(s, m, givingUp, rest)
  {
    hide HsetStatus, HsetCode, Zrem, Back;
    assert s.givenUp + {m.key} + {m.key} == s.givenUp + {m.key};
  }

  lemma SchedMarkAlone(s: State, m: Mark, givingUp: bool, rest: seq<PendingIssue>) returns (steps: seq<Step>)
    requires m.pc.SettingStatus? && s.sched == Marking(m, givingUp, rest)
    ensures To(s, steps, SchedMarkDone(s, m, givingUp, rest))
  {
    var next := Recovering(SchedMarkNext);
    var end := SchedMarkDone(s, m, givingUp, rest);
    assert SchedMarked(s, m, givingUp, rest, 0) == s;
    SchedMarkSteps(s, m, givingUp, rest);
    ToNowhere(end);
    var removing := m.(pc := Removing);
    if m.code.Some? {
      LastSchedMarkStep(s, removing, givingUp, rest, 2);
      hide Enabled, Apply, SchedMarked, SchedMarkDone, MarkedUpTo;
      assert SchedMarkDone(s, removing, givingUp, rest) == end by { SameDone(s, m, givingUp, rest); }
      ToByOne(SchedMarked(s, removing, givingUp, rest, 2), next, [], end);
      ToByOne(SchedMarked(s, m.(pc := SettingCode), givingUp, rest, 1), next, [next] + [], end);
      steps := [next] + ([next] + ([next] + []));
      ToByOne(s, next, [next] + ([next] + []), end);
    } else {
      LastSchedMarkStep(s, removing, givingUp, rest, 1);
      hide Enabled, Apply, SchedMarked, SchedMarkDone, MarkedUpTo;
      assert SchedMarkDone(s, removing, givingUp, rest) == end by { SameDone(s, m, givingUp, rest); }
      ToByOne(SchedMarked(s, removing, givingUp, rest, 1), next, [], end);
      steps := [next] + ([next] + []);
      ToByOne(s, next, [next] + [], end);
    }
  }

  lemma SameDone(s: State, m: Mark, givingUp: bool, rest: seq<PendingIssue>)
    ensures SchedMarkDone(s, m.(pc := Removing), givingUp, rest) == SchedMarkDone(s, m, givingUp, rest)
  {}

  function Retried(s: State, p: PendingIssue, at: int, rest: seq<PendingIssue>, pc: RepublishPc, cut: nat): State {
    s.(redis := RepublishedUpTo(s.redis, p.key, at, cut), sched := Republishing(p, at, pc, rest))
  }

  function RetryDone(s: State, p: PendingIssue, at: int, rest: seq<PendingIssue>): State {
    var m := RequestPayload(Some(p.requestId), p.key.userId, p.eventId, p.key.couponTypeId, Some(p.createdAt));
    s.(redis := RepublishedUpTo(s.redis, p.key, at, ALL_COMMANDS), sched := Back(rest),
       requests := s.requests + if ValidRequest(m) then [m] else [])
  }

  lemma RetrySteps(s: State, p: PendingIssue, at: int, rest: seq<PendingIssue>, ok: bool)
    requires ok <==> ValidRequest(RebuiltPayload(p))
    ensures var step := Recovering(RepublishNext(ok));
            var s0, s1 := Retried(s, p, at, rest, Counting, 0), Retried(s, p, at, rest, Stamping, 1);
            var s2, s3 := Retried(s, p, at, rest, Rescoring, 2), Retried(s, p, at, rest, Resending, 3);
            && Enabled(s0, step) && Apply(s0, step) == s1 && Enabled(s1, step) && Apply(s1, step) == s2
            && Enabled(s2, step) && Apply(s2, step) == s3
            && Enabled(s3, step) && Apply(s3, step) == RetryDone(s, p, at, rest)
  {
    hide HincrAttempts, HsetLastPublished, Zadd, ValidRequest, Back;
    assert s.requests + [] == s.requests;
  }

  lemma RetryAlone(s: State, p: PendingIssue, at: int, rest: seq<PendingIssue>) returns (steps: seq<Step>)
    requires s.sched == Republishing(p, at, Counting, rest)
    ensures To(s, steps, RetryDone(s, p, at, rest))
  {
    var ok := ValidRequest(RebuiltPayload(p));
    var step := Recovering(RepublishNext(ok));
    var end := RetryDone(s, p, at, rest);
    assert Retried(s, p, at, rest, Counting, 0) == s;
    RetrySteps(s, p, at, rest, ok);
    ToNowhere(end);
    hide Enabled, Apply, Retried, RetryDone, ValidRequest;
    ToByOne(Retried(s, p, at, rest, Resending, 3), step, [], end);
    ToByOne(Retried(s, p, at, rest, Rescoring, 2), step, [step] + [], end);
    ToByOne(Retried(s, p, at, rest, Stamping, 1), step, [step] + ([step] + []), end);
    steps := [step] + ([step] + ([step] + ([step] + [])));
    ToByOne(s, step, [step] + ([step] + ([step] + [])), end);
  }

  /** What meets the scheduler at an entry when nothing fails: the row server-c has, and the clock. */
  function TurnAt(cs: seq<Coupon>, at: int, k: Key): Turn {
    var row := RowOf(cs, k);
    Turn(if row.Some? then Knows(cs[row.value]) else KnowsNothing, at, ALL_COMMANDS, C.Sent)
  }

  /** Redis, topic and scheduler are as one turn of the scheduler's object leaves them. */
  predicate TurnTaken(s: State, s': State, p: PendingIssue, at: int, rest: seq<PendingIssue>) {
    && s'.redis == AfterTurn(s.redis, s.max, p, TurnAt(s.c.db.coupons, at, p.key))
    && s'.requests == s.requests + SentBy(s.max, p, TurnAt(s.c.db.coupons, at, p.key))
    && s'.sched == Back(rest) && s'.c == s.c && s'.max == s.max
  }

  lemma AVisitAlone(s: State, p: PendingIssue, at: int, rest: seq<PendingIssue>) returns (steps: seq<Step>, s': State)
    requires s.sched == Working([p] + rest)
    ensures To(s, steps, s') && TurnTaken(s, s', p, at, rest)
  {
    var row := RowOf(s.c.db.coupons, p.key);
    var visit := Recovering(SchedStep.Visit(row, at));
    assert ([p] + rest)[0] == p && ([p] + rest)[1..] == rest;
    var mid := Apply(s, visit);
    assert Enabled(s, visit);
    if mid.sched.Marking? {
      steps := SchedMarkAlone(mid, mid.sched.mark, mid.sched.givingUp, rest);
      s' := SchedMarkDone(mid, mid.sched.mark, mid.sched.givingUp, rest);
      assert s.requests + [] == s.requests;
    } else {
      steps := RetryAlone(mid, p, at, rest);
      s' := RetryDone(mid, p, at, rest);
    }
    hide MarkedUpTo, RepublishedUpTo, ValidRequest, RowOf, To, HasKey;
    ToByOne(s, visit, steps, s');
    steps := [visit] + steps;
  }

  // ---------------------------------------------------------------- a whole sweep

  lemma {:induction false} FetchedFirst(hashes: map<Key, Hash>, k: Key, rest: seq<Key>)
    ensures Fetched(hashes, [k] + rest) ==
            (if k in hashes && ReadPending(k, hashes[k]).Some? then [ReadPending(k, hashes[k]).value] else [])
            + Fetched(hashes, rest)
    decreases |rest|
  {
    hide ReadPending;
    if rest == [] {
      assert ([k] + rest)[..0] == [] && [k] + rest == [k];
      assert Fetched(hashes, [k][..0]) == [];
    } else {
      var n := |rest| - 1;
      FetchedFirst(hashes, k, rest[..n]);
      assert ([k] + rest)[..n + 1] == [k] + rest[..n] && ([k] + rest)[n + 1] == rest[n];
    }
  }

  lemma {:induction false} AfterTurnsFirst(r: Redis, max: int, p: PendingIssue, rest: seq<PendingIssue>, turn: Key -> Turn)
    ensures AfterTurns(r, max, [p] + rest, turn) == AfterTurns(AfterTurn(r, max, p, turn(p.key)), max, rest, turn)
    decreases |rest|
  {
    hide AfterTurn;
    if rest == [] {
      assert ([p] + rest)[..0] == [] && [p] + rest == [p];
      assert AfterTurns(r, max, [p][..0], turn) == r;
    } else {
      var n := |rest| - 1;
      AfterTurnsFirst(r, max, p, rest[..n], turn);
      assert ([p] + rest)[..n + 1] == [p] + rest[..n] && ([p] + rest)[n + 1] == rest[n];
    }
  }

  lemma {:induction false} ResentFirst(max: int, p: PendingIssue, rest: seq<PendingIssue>, turn: Key -> Turn)
    ensures Resent(max, [p] + rest, turn) == SentBy(max, p, turn(p.key)) + Resent(max, rest, turn)
    decreases |rest|
  {
    hide SentBy;
    if rest == [] {
      assert ([p] + rest)[..0] == [] && [p] + rest == [p];
      assert Resent(max, [p][..0], turn) == [];
    } else {
      var n := |rest| - 1;
      ResentFirst(max, p, rest[..n], turn);
      assert ([p] + rest)[..n + 1] == [p] + rest[..n] && ([p] + rest)[n + 1] == rest[n];
    }
  }

  function FetchDone(s: State, todo: seq<Key>, got: seq<PendingIssue>): State {
    s.(redis := s.redis.(zset := s.redis.zset - Orphans(s.redis.hashes, todo)),
       sched := Back(got + Fetched(s.redis.hashes, todo)))
  }

  lemma OneFetch(s: State, todo: seq<Key>, got: seq<PendingIssue>) returns (got': seq<PendingIssue>)
    requires s.sched == Fetching(todo, got) && todo != []
    ensures var s' := FetchNext(s);
            s'.sched == Fetching(todo[1..], got') && FetchDone(s', todo[1..], got') == FetchDone(s, todo, got)
  {
    var k := todo[0];
    assert todo == [k] + todo[1..];
    got' := FetchNext(s).sched.got;
    OneFetchReads(s, todo, got);
    OneFetchRemoves(s, todo, got);
    hide Fetched, Orphans, ReadPending, Back;
  }

  lemma OneFetchReads(s: State, todo: seq<Key>, got: seq<PendingIssue>)
    requires s.sched == Fetching(todo, got) && todo != []
    ensures var s' := FetchNext(s);
            && s'.redis.hashes == s.redis.hashes && s'.sched.Fetching?
            && s'.sched.got + Fetched(s.redis.hashes, todo[1..]) == got + Fetched(s.redis.hashes, todo)
  {
    var k := todo[0];
    assert todo == [k] + todo[1..];
    hide Fetched, ReadPending;
    FetchedFirst(s.redis.hashes, k, todo[1..]);
    var p := ReadPending(k, HashOf(s.redis, k));
    var later := Fetched(s.redis.hashes, todo[1..]);
    assert p.Some? ==> (got + [p.value]) + later == got + ([p.value] + later);
    assert [] + later == later;
  }

  lemma OneFetchRemoves(s: State, todo: seq<Key>, got: seq<PendingIssue>)
    requires s.sched == Fetching(todo, got) && todo != []
    ensures var hashes := s.redis.hashes;
            FetchNext(s).redis.zset - Orphans(hashes, todo[1..]) == s.redis.zset - Orphans(hashes, todo)
  {
    var k := todo[0];
    assert todo == [k] + todo[1..];
    var hashes := s.redis.hashes;
    assert Orphans(hashes, todo) == Orphans(hashes, todo[1..]) + if k in hashes then {} else {k};
    hide Orphans, ReadPending;
    assert k !in hashes ==> FetchNext(s).redis.zset == s.redis.zset - {k};
  }

  lemma LastFetch(s: State, got: seq<PendingIssue>)
    requires s.sched == Fetching([], got)
    ensures FetchNext(s) == FetchDone(s, [], got)
  {
    assert s.redis.zset - {} == s.redis.zset && Orphans(s.redis.hashes, []) == {};
    assert got + [] == got;
  }

  /** The reads of a sweep come to what one fetch returns and removes. */
  lemma {:induction false} AFetchAlone(s: State, todo: seq<Key>, got: seq<PendingIssue>) returns (steps: seq<Step>)
    requires s.sched == Fetching(todo, got)
    ensures To(s, steps, FetchDone(s, todo, got))
    decreases |todo|
  {
    var fetch := Recovering(FetchOne);
    assert Enabled(s, fetch) && Apply(s, fetch) == FetchNext(s);
    hide Enabled, Apply, FetchNext, FetchDone, To;
    if todo == [] {
      LastFetch(s, got);
      ToNowhere(FetchDone(s, todo, got));
      ToByOne(s, fetch, [], FetchDone(s, todo, got));
      steps := [fetch] + [];
    } else {
      var got' := OneFetch(s, todo, got);
      var rest := AFetchAlone(FetchNext(s), todo[1..], got');
      ToByOne(s, fetch, rest, FetchDone(s, todo, got));
      steps := [fetch] + rest;
    }
  }

  /** Redis, topic and scheduler are as the turns of these entries leave them. */
  ghost predicate TurnsTaken(s: State, s': State, ps: seq<PendingIssue>, at: int) {
    && s'.redis == AfterTurns(s.redis, s.max, ps, k => TurnAt(s.c.db.coupons, at, k))
    && s'.requests == s.requests + Resent(s.max, ps, k => TurnAt(s.c.db.coupons, at, k))
    && s'.sched.Resting? && s'.c == s.c && s'.max == s.max
  }

  lemma NoTurns(s: State, at: int)
    requires s.sched.Resting?
    ensures TurnsTaken(s, s, [], at)
  {}

  lemma OneTurnMore(s: State, mid: State, s': State, p: PendingIssue, rest: seq<PendingIssue>, at: int)
    requires TurnTaken(s, mid, p, at, rest) && TurnsTaken(mid, s', rest, at)
    ensures TurnsTaken(s, s', [p] + rest, at)
  {
    hide AfterTurn, AfterTurns, SentBy, Resent, TurnAt;
    AfterTurnsFirst(s.redis, s.max, p, rest, k => TurnAt(s.c.db.coupons, at, k));
    ResentFirst(s.max, p, rest, k => TurnAt(s.c.db.coupons, at, k));
  }

  lemma {:induction false} VisitsAlone(s: State, ps: seq<PendingIssue>, at: int) returns (steps: seq<Step>, s': State)
    requires s.sched == Back(ps)
    ensures To(s, steps, s') && TurnsTaken(s, s', ps, at)
    decreases |ps|
  {
    hide To, TurnsTaken, TurnTaken;
    if ps == [] {
      ToNowhere(s);
      NoTurns(s, at);
      steps, s' := [], s;
    } else {
      assert ps == [ps[0]] + ps[1..];
      var first, mid := AVisitAlone(s, ps[0], at, ps[1..]);
      BackToTheRest(s, mid, ps[0], at, ps[1..]);
      var rest;
      rest, s' := VisitsAlone(mid, ps[1..], at);
      ToOn(s, first, mid, rest, s');
      OneTurnMore(s, mid, s', ps[0], ps[1..], at);
      steps := first + rest;
    }
  }

  lemma BackToTheRest(s: State, s': State, p: PendingIssue, at: int, rest: seq<PendingIssue>)
    requires TurnTaken(s, s', p, at, rest)
    ensures s'.sched == Back(rest)
  {}

  /**
   * A sweep that is alone does to Redis and to the topic exactly what the scheduler's object does in
   * one sweep: the fetch, and a turn for each entry with the row server-c has.
   */
  lemma ASweepAlone(s: State, members: seq<Key>, at: int) returns (steps: seq<Step>, s': State)
    requires s.sched.Resting? && Distinct(members) && forall k | k in members :: k in s.redis.zset
    ensures To(s, steps, s') && s'.sched.Resting?
    ensures s'.redis == Swept(s.redis, s.max, members, k => TurnAt(s.c.db.coupons, at, k))
    ensures s'.requests ==
            s.requests + Resent(s.max, Fetched(s.redis.hashes, members), k => TurnAt(s.c.db.coupons, at, k))
  {
    var sweep := Recovering(Sweep(members));
    var begun := s.(sched := Fetching(members, []));
    assert Enabled(s, sweep) && Apply(s, sweep) == begun;
    var fetch := AFetchAlone(begun, members, []);
    var fetched := FetchDone(begun, members, []);
    assert [] + Fetched(s.redis.hashes, members) == Fetched(s.redis.hashes, members);
    var visits;
    visits, s' := VisitsAlone(fetched, Fetched(s.redis.hashes, members), at);
    hide Enabled, Apply, To, Fetched, AfterTurns, Resent, TurnAt, Orphans;
    ToOn(begun, fetch, fetched, visits, s');
    ToByOne(s, sweep, fetch + visits, s');
    steps := [sweep] + (fetch + visits);
  }

  // ---------------------------------------------------------------- what failed sends leave

  /** A request whose send failed may still arrive, then or later; its caller is answered ACCEPTED all the same. */
  lemma AFailedSendMayArrive(s: State, id: nat)
    requires id in s.accepts && s.accepts[id].pc.Publishing?
    ensures var a := s.accepts[id]; var fails := Accepting(id, Publish(false));
            var m := RequestPayload(Some(a.requestId), a.key.userId, a.eventId, a.key.couponTypeId, Some(a.now));
            && Enabled(s, fails) && a.key in Apply(s, fails).accepted && Apply(s, fails).requests == s.requests
            && (ValidRequest(m) ==>
                  && Enabled(Apply(s, fails), LateSend(m))
                  && Apply(Apply(s, fails), LateSend(m)).requests == s.requests + [m])
            && (!ValidRequest(m) ==> Apply(s, fails).sending == s.sending)
  {
    hide ValidRequest;
  }

  /** A result is on the topic unless its send failed outright; the poller marks it only if it was told of no failure. */
  lemma WhatAResultSendLeaves(c: C.State, outcome: C.SendOutcome)
    requires C.CanSend(c)
    ensures var i := c.poller.todo[0]; var c' := C.Apply(c, C.Relaying(C.PollSend(outcome)));
            && c'.topic == c.topic + (if outcome.Sent? || outcome.ErrorButSent? then [c.db.outbox[i].payload] else [])
            && c'.poller == C.Polling(c.poller.todo[1..], if outcome.Sent? then c.poller.sent + {i} else c.poller.sent)
            && c'.db == c.db
  {}

  /** A commit whose answer is lost has written what any other commit writes. */
  lemma WhatALostCommitLeaves(c: C.State, id: nat)
    requires id in c.txs && c.txs[id].pc.Appended?
    ensures C.IssueNext(c, id, C.CommitThenCrash).db == C.IssueNext(c, id, C.Commit).db
    ensures id !in C.IssueNext(c, id, C.CommitThenCrash).txs
  {}
}
