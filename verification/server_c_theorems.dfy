/** What server-c guarantees over whole runs, however its transactions and calls interleave. */
module ServerCTheorems {
  import opened Payloads
  import opened CouponDb
  import opened ServerC
  import opened ServerCProofs

  // ---------------------------------------------------------------- serializability

  /** The operation a step commits, if it commits one. */
  function Committed(s: State, step: Step): seq<Op>
    requires Enabled(s, step)
  {
    match step
    case Issuing(id, st) => if st.Commit? || st.CommitThenCrash? then [IssueOp(s.txs[id].a)] else []
    case Redeeming(id, st) =>
      if st.CallCommit? then [RedeemOp(s.calls[id].pc.row, s.calls[id].pc.version, s.calls[id].pc.now)] else []
    case Relaying(st) => if st.PollMark? then [MarkOp(s.poller.sent)] else []
  }

  /** The operations a run commits, in the order of their commits. */
  ghost function CommitOrder(s: State, steps: seq<Step>): seq<Op>
    requires Runs(s, steps)
    decreases steps
  {
    if steps == [] then []
    else Committed(s, steps[0]) + CommitOrder(Apply(s, steps[0]), steps[1..])
  }

  /** The steps that commit something. */
  predicate Commits(step: Step) {
    match step
    case Issuing(_, st) => st.Commit? || st.CommitThenCrash?
    case Redeeming(_, st) => st.CallCommit?
    case Relaying(st) => st.PollMark?
  }

  ghost predicate SameTables(s: State, s': State) {
    s'.db == s.db && s'.log == s.log && s'.events == s.events && s'.db0 == s.db0
  }

  lemma IssueBodyWritesNothing(s: State, id: nat, step: IssueStep)
    requires CanIssue(s, id, step) && !step.Commit? && !step.CommitThenCrash?
    ensures SameTables(s, IssueNext(s, id, step))
  {}

  lemma CallBodyWritesNothing(s: State, id: nat, step: CallStep)
    requires CanCall(s, id, step) && !step.CallCommit?
    ensures SameTables(s, CallNext(s, id, step))
  {}

  lemma OnlyCommitsWrite(s: State, step: Step)
    requires Enabled(s, step) && !Commits(step)
    ensures SameTables(s, Apply(s, step))
  {
    hide CanIssue, IssueNext, CanCall, CallNext;
    match step
    case Issuing(id, st) => IssueBodyWritesNothing(s, id, st);
    case Redeeming(id, st) => CallBodyWritesNothing(s, id, st);
    case Relaying(st) =>
  }

  lemma StepLogs(s: State, step: Step)
    requires Enabled(s, step)
    ensures var s' := Apply(s, step);
            s'.log == s.log + Committed(s, step) && s'.events == s.events && s'.db0 == s.db0
  {
    if !Commits(step) { OnlyCommitsWrite(s, step); }
  }

  lemma {:induction false} RunLogs(s: State, steps: seq<Step>)
    requires Runs(s, steps)
    ensures After(s, steps).log == s.log + CommitOrder(s, steps)
    ensures After(s, steps).events == s.events && After(s, steps).db0 == s.db0
    decreases steps
  {
    if steps != [] {
      StepLogs(s, steps[0]);
      RunLogs(Apply(s, steps[0]), steps[1..]);
    }
  }

  /**
   * Every interleaving is equivalent to running the committed operations one at a time, in the
   * order of their commits; whatever did not commit leaves no trace in the tables.
   */
  lemma Serializability(s: State, steps: seq<Step>)
    requires Init(s) && Runs(s, steps)
    ensures After(s, steps).db == Replay(s.events, s.db, CommitOrder(s, steps))
  {
    hide *;
    InitHasInv(s);
    RunKeepsInv(s, steps);
    RunLogs(s, steps);
    StartsEmpty(s);
    IsSerial(After(s, steps));
    assert [] + CommitOrder(s, steps) == CommitOrder(s, steps);
  }

  lemma StartsEmpty(s: State)
    requires Init(s)
    ensures s.db == s.db0 && s.log == []
  {}

  lemma IsSerial(s: State)
    requires Inv(s)
    ensures s.db == Replay(s.events, s.db0, s.log)
  {}

  // ---------------------------------------------------------------- stock

  /** availableCount + issued coupons = total, and never below zero, in every reachable state. */
  lemma StockIsConserved(s: State, steps: seq<Step>, k: StockKey)
    requires Init(s) && Runs(s, steps) && k in s.db.stock
    ensures var db := After(s, steps).db;
            && k in db.stock && db.stock[k].total == s.db.stock[k].total
            && 0 <= db.stock[k].available
            && db.stock[k].available + Count(db.coupons, k, IsGranted) == s.db.stock[k].total
  {
    InitHasInv(s);
    RunKeepsInv(s, steps);
    RunKeepsTotals(s, steps, k);
  }

  /** The first total users are served and nobody else: coupons issued = min(total, users decided). */
  lemma ExactlyTheTotalIsServed(s: State, steps: seq<Step>, k: StockKey)
    requires Init(s) && Runs(s, steps) && k in s.db.stock
    ensures var cs := After(s, steps).db.coupons;
            var asked := Count(cs, k, IsGranted) + Count(cs, k, IsTurnedAway);
            Count(cs, k, IsGranted) == if asked < s.db.stock[k].total then asked else s.db.stock[k].total
  {
    InitHasInv(s);
    RunKeepsInv(s, steps);
    RunKeepsTotals(s, steps, k);
    ExactlyTheTotalIsIssued(After(s, steps).db, k);
  }

  ghost predicate StockShrinks(stock: map<StockKey, Stock>, stock': map<StockKey, Stock>, k: StockKey) {
    k in stock && k in stock' && stock'[k].total == stock[k].total && stock'[k].available <= stock[k].available
  }

  lemma IssuingShrinksStock(s: State, id: nat, step: IssueStep, k: StockKey)
    requires TxsOk(s.events, s.db, s.txs) && CanIssue(s, id, step) && k in s.db.stock
    ensures StockShrinks(s.db.stock, IssueNext(s, id, step).db.stock, k)
  {
    if step.Commit? || step.CommitThenCrash? {
      assert TxOk(s.events, s.db, s.txs[id]);
    } else {
      IssueBodyWritesNothing(s, id, step);
      hide *;
    }
  }

  lemma RedeemingKeepsStock(s: State, id: nat, step: CallStep)
    requires CanCall(s, id, step)
    ensures CallNext(s, id, step).db.stock == s.db.stock
  {}

  lemma StepKeepsTotals(s: State, step: Step, k: StockKey)
    requires Inv(s) && Enabled(s, step) && k in s.db.stock
    ensures StockShrinks(s.db.stock, Apply(s, step).db.stock, k)
  {
    assert TxsOk(s.events, s.db, s.txs);
    hide Inv, TxsOk, CanIssue, IssueNext, CanCall, CallNext;
    match step
    case Issuing(id, st) => IssuingShrinksStock(s, id, st, k);
    case Redeeming(id, st) => RedeemingKeepsStock(s, id, st);
    case Relaying(st) =>
  }

  lemma {:induction false} RunKeepsTotals(s: State, steps: seq<Step>, k: StockKey)
    requires Inv(s) && Runs(s, steps) && k in s.db.stock
    ensures StockShrinks(s.db.stock, After(s, steps).db.stock, k)
    decreases steps
  {
    hide Inv, Enabled, Apply;
    if steps != [] {
      StepKeepsTotals(s, steps[0], k);
      StepKeepsInv(s, steps[0]);
      RunKeepsTotals(Apply(s, steps[0]), steps[1..], k);
    }
  }

  // ---------------------------------------------------------------- the rows

  /** Rows are never removed, and of what they say only success to used can change. */
  ghost predicate RowsExtend(cs: seq<Coupon>, cs': seq<Coupon>) {
    && |cs| <= |cs'|
    && forall i | 0 <= i < |cs| ::
         && cs'[i].code == cs[i].code && CouponKey(cs'[i]) == CouponKey(cs[i])
         && cs'[i].eventId == cs[i].eventId && cs'[i].issuedAt == cs[i].issuedAt
         && (cs'[i] == cs[i] || (cs[i].status.Success? && cs'[i].status.Used?))
  }

  lemma IssuingExtendsRows(s: State, id: nat, step: IssueStep)
    requires CanIssue(s, id, step)
    ensures RowsExtend(s.db.coupons, IssueNext(s, id, step).db.coupons)
  {
    if !step.Commit? && !step.CommitThenCrash? {
      IssueBodyWritesNothing(s, id, step);
      hide CanIssue, IssueNext;
    }
  }

  lemma RedeemingExtendsRows(s: State, id: nat, step: CallStep)
    requires CallsOk(s.db.coupons, s.answers, s.calls) && CanCall(s, id, step)
    ensures RowsExtend(s.db.coupons, CallNext(s, id, step).db.coupons)
  {
    if step.CallCommit? {
      assert CallOk(s.db.coupons, s.answers, s.calls[id]);
    } else {
      CallBodyWritesNothing(s, id, step);
      hide CanCall, CallNext;
    }
  }

  lemma StepExtendsRows(s: State, step: Step)
    requires Inv(s) && Enabled(s, step)
    ensures RowsExtend(s.db.coupons, Apply(s, step).db.coupons)
  {
    hide Inv, CallsOk, CanIssue, IssueNext, CanCall, CallNext, RowsExtend, MarkPublished, CanPoll;
    RowsStayAsTheyAre(s.db.coupons);
    match step
    case Issuing(id, st) => IssuingExtendsRows(s, id, st);
    case Redeeming(id, st) =>
      CallsAreOk(s);
      RedeemingExtendsRows(s, id, st);
    case Relaying(st) => PollingKeepsRows(s, st);
  }

  lemma RowsStayAsTheyAre(cs: seq<Coupon>)
    ensures RowsExtend(cs, cs)
  {}

  lemma CallsAreOk(s: State)
    requires Inv(s)
    ensures CallsOk(s.db.coupons, s.answers, s.calls)
  {
    hide CallsOk, TablesOk, Serial, TxsOk, ChainOk, CacheComplete;
  }

  lemma PollingKeepsRows(s: State, step: PollStep)
    requires CanPoll(s, step)
    ensures PollNext(s, step).db.coupons == s.db.coupons
  {}

  lemma {:induction false} RunExtendsRows(s: State, steps: seq<Step>)
    requires Inv(s) && Runs(s, steps)
    ensures RowsExtend(s.db.coupons, After(s, steps).db.coupons)
    decreases steps
  {
    hide Inv, Enabled, Apply;
    if steps != [] {
      StepExtendsRows(s, steps[0]);
      StepKeepsInv(s, steps[0]);
      RunExtendsRows(Apply(s, steps[0]), steps[1..]);
    }
  }

  // ---------------------------------------------------------------- redeem

  /**
   * A coupon is used once. At most one call per code is told it redeemed (or redeemed unheard), a
   * used row has exactly such a call, everybody who is told a use time is told the row's and owns
   * it, and in real time: whoever was granted or told of the use, or lost a race for it, is told of
   * the use by every call begun later.
   */
  lemma RedeemIsLinearizable(s: State, steps: seq<Step>)
    requires Init(s) && Runs(s, steps)
    ensures var answers := After(s, steps).answers; var cs := After(s, steps).db.coupons;
            && (forall i, j | 0 <= i < j < |answers| && Wins(answers[i].reply) && Wins(answers[j].reply) ::
                  answers[i].code != answers[j].code)
            && (forall r | 0 <= r < |cs| && cs[r].status.Used? :: HasWinner(answers, cs[r].code))
            && (forall i, r | 0 <= i < |answers| && TellsUse(answers[i].reply)
                              && 0 <= r < |cs| && cs[r].code == answers[i].code ::
                  cs[r].userId == answers[i].userId && cs[r].usedAt == Some(answers[i].reply.at))
            && (forall i, j | 0 <= i < j < |answers| && (answers[i].reply.RaceRetry? || TellsUse(answers[i].reply))
                              && answers[i].code == answers[j].code && answers[i].userId == answers[j].userId
                              && i < answers[j].bornAt ::
                  answers[j].reply.Replayed? || answers[j].reply.Broken?)
  {
    InitHasInv(s);
    RunKeepsInv(s, steps);
    var answers := After(s, steps).answers;
    var cs := After(s, steps).db.coupons;
    forall i, r | 0 <= i < |answers| && TellsUse(answers[i].reply) && 0 <= r < |cs| && cs[r].code == answers[i].code
      ensures cs[r].userId == answers[i].userId && cs[r].usedAt == Some(answers[i].reply.at)
    {
      assert AnswerOk(cs, answers[i]);
    }
  }

  /** All who are told when a coupon was used are told the same instant, the winner's. */
  lemma EveryReplayTellsTheWinnersTime(s: State, steps: seq<Step>, i: nat, j: nat)
    requires Init(s) && Runs(s, steps)
    requires i < |After(s, steps).answers| && j < |After(s, steps).answers|
    requires var a, b := After(s, steps).answers[i], After(s, steps).answers[j];
             a.code == b.code && TellsUse(a.reply) && TellsUse(b.reply)
    ensures After(s, steps).answers[i].reply.at == After(s, steps).answers[j].reply.at
  {
    RedeemIsLinearizable(s, steps);
    InitHasInv(s);
    RunKeepsInv(s, steps);
    assert AnswerOk(After(s, steps).db.coupons, After(s, steps).answers[i]);
  }

  /** The UPDATE guards the version alone, yet a row that was never a success is never used. */
  lemma OnlySuccessesAreUsed(s: State, steps: seq<Step>, row: nat)
    requires Inv(s) && Runs(s, steps) && row < |s.db.coupons|
    requires s.db.coupons[row].status.SoldOut? || s.db.coupons[row].status.Failed?
    ensures row < |After(s, steps).db.coupons| && After(s, steps).db.coupons[row] == s.db.coupons[row]
  {
    RunExtendsRows(s, steps);
  }

  // ---------------------------------------------------------------- results

  /**
   * Row i and outbox record i belong together: the record tells the row's first status and, for a
   * success only, its code; a published record is on the topic; and the topic holds nothing else.
   */
  lemma EveryRowHasItsResult(s: State, steps: seq<Step>)
    requires Init(s) && Runs(s, steps)
    ensures var db := After(s, steps).db; var topic := After(s, steps).topic;
            && |db.outbox| == |db.coupons|
            && (forall i | 0 <= i < |db.coupons| :: Tells(db.outbox[i].payload, db.coupons[i]))
            && (forall i | 0 <= i < |db.outbox| :: !db.outbox[i].published || db.outbox[i].payload in topic)
            && (forall i, j | 0 <= i < j < |db.outbox| :: ResultKey(db.outbox[i].payload) != ResultKey(db.outbox[j].payload))
            && (forall m | m in topic ::
                  ValidResult(m) && exists i | 0 <= i < |db.coupons| :: Tells(m, db.coupons[i]))
  {
    InitHasInv(s);
    RunKeepsInv(s, steps);
    var s' := After(s, steps);
    forall i, j | 0 <= i < j < |s'.db.outbox|
      ensures ResultKey(s'.db.outbox[i].payload) != ResultKey(s'.db.outbox[j].payload)
    {
      assert Tells(s'.db.outbox[i].payload, s'.db.coupons[i]) && Tells(s'.db.outbox[j].payload, s'.db.coupons[j]);
    }
    forall m | m in s'.topic
      ensures ValidResult(m) && exists i | 0 <= i < |s'.db.coupons| :: Tells(m, s'.db.coupons[i])
    {
      var _ := TopicTellsARow(s', m);
    }
  }

  lemma TopicTellsARow(s: State, m: ResultPayload) returns (row: nat)
    requires Inv(s) && m in s.topic
    ensures row < |s.db.coupons| && Tells(m, s.db.coupons[row])
  {
    assert HasPayload(s.db.outbox, m);
    row :| row < |s.db.outbox| && s.db.outbox[row].payload == m;
  }

  // ---------------------------------------------------------------- the sold-out cache

  /** Once a key is in the sold-out cache its stock is 0 for ever: nothing more can be granted. */
  lemma CachedStockGrantsNothing(s: State, steps: seq<Step>, later: seq<Step>, a: Attempt)
    requires Init(s) && Runs(s, steps) && Runs(After(s, steps), later)
    requires AttemptStockKey(a) in After(s, steps).cache
    ensures var db := After(After(s, steps), later).db;
            && AttemptStockKey(a) in db.stock && db.stock[AttemptStockKey(a)].available == 0
            && Decide(s.events, db.stock, a) != Decided(Success)
            && Count(Issue(s.events, db, a).coupons, AttemptStockKey(a), IsGranted)
               == Count(db.coupons, AttemptStockKey(a), IsGranted)
  {
    InitHasInv(s);
    RunKeepsInv(s, steps);
    var mid := After(s, steps);
    RunKeepsInv(mid, later);
    RunKeepsTotals(mid, later, AttemptStockKey(a));
    var db := After(mid, later).db;
    var d := Decide(s.events, db.stock, a);
    if d.Decided? { CountAppend(db.coupons, CouponFor(a, d.status), AttemptStockKey(a), IsGranted); }
  }

  // ---------------------------------------------------------------- deadlock freedom

  /** i cannot take its next statement until j ends. */
  predicate WaitsFor(s: State, i: nat, j: nat)
    requires i in s.txs && j in s.txs
  {
    || (s.txs[i].pc.WantStock? && HoldsStock(s.txs[j]) && AttemptStockKey(s.txs[i].a) == AttemptStockKey(s.txs[j].a))
    || (s.txs[i].pc.Insert? && CodeClash(s.txs[i], s.txs[j]))
    || (s.txs[i].pc.Coded? && KeyClash(s.txs[i], s.txs[j]))
  }

  /** Locks are taken in this order: stock, code, the user's key. */
  function LockRank(tx: Tx): nat {
    if HoldsRow(tx) then 3 else if HoldsCode(tx) then 2 else if HoldsStock(tx) then 1 else 0
  }

  ghost predicate WaitChain(s: State, path: seq<nat>) {
    && |path| >= 2
    && (forall n | 0 <= n < |path| :: path[n] in s.txs)
    && forall n | 0 <= n < |path| - 1 :: WaitsFor(s, path[n], path[n + 1])
  }

  lemma {:induction false} WaitingClimbs(s: State, path: seq<nat>)
    requires WaitChain(s, path)
    ensures LockRank(s.txs[path[0]]) < LockRank(s.txs[path[|path| - 1]])
    decreases |path|
  {
    assert WaitsFor(s, path[0], path[1]);
    if |path| > 2 {
      var rest := path[1..];
      forall n | 0 <= n < |rest| - 1 ensures WaitsFor(s, rest[n], rest[n + 1]) {
        assert WaitsFor(s, path[n + 1], path[n + 1 + 1]);
      }
      WaitingClimbs(s, rest);
    }
  }

  /** No circle of transactions waiting for each other, of any length. */
  lemma NoDeadlock(s: State, path: seq<nat>)
    requires WaitChain(s, path)
    ensures path[0] != path[|path| - 1]
  {
    WaitingClimbs(s, path);
  }

  /** Steps by which work gets done: nothing is aborted, lost or skipped, and nothing new begins. */
  predicate Forward(step: Step) {
    && step.Issuing?
    && !(step.issue.Begin? || step.issue.Abort? || step.issue.CommitThenCrash? || step.issue.SkipPost?)
  }

  /** The statement a transaction takes next. */
  function Next(pc: Pc): IssueStep {
    match pc
    case Begun => ExistsCheck
    case Short => Commit
    case Fresh => EventCheck
    case WantStock => LockStock
    case Locked(_) => Decrement
    case Insert(_, _) => InsertCode
    case Coded(_, _) => InsertKey
    case Inserted(_, _) => AppendOutbox
    case Appended(_, _) => Commit
    case PostRead => ReadStock
    case PostSet => SetCache
  }

  function StatementsLeft(pc: Pc): nat {
    match pc
    case Begun => 11
    case Fresh => 10
    case WantStock => 9
    case Locked(_) => 8
    case Insert(_, _) => 7
    case Coded(_, _) => 6
    case Inserted(_, _) => 5
    case Appended(_, _) => 4
    case PostRead => 3
    case PostSet => 2
    case Short => 1
  }

  /** Nobody holds a lock this transaction has still to take. */
  ghost predicate Unobstructed(txs: map<nat, Tx>, id: nat)
    requires id in txs
  {
    && (StatementsLeft(txs[id].pc) > 5 ==> forall j | j in txs && j != id :: !HoldsRow(txs[j]))
    && (StatementsLeft(txs[id].pc) > 6 ==> forall j | j in txs && j != id :: !HoldsCode(txs[j]))
    && (StatementsLeft(txs[id].pc) > 8 ==> forall j | j in txs && j != id :: !HoldsStock(txs[j]))
  }

  /** While a transaction is unfinished, some transaction is unobstructed. */
  lemma SomeoneCanGo(txs: map<nat, Tx>) returns (id: nat)
    requires txs != map[]
    ensures id in txs && Unobstructed(txs, id)
  {
    if i :| i in txs && HoldsRow(txs[i]) {
      id := i;
    } else if i :| i in txs && HoldsCode(txs[i]) {
      id := i;
    } else if i :| i in txs && HoldsStock(txs[i]) {
      id := i;
    } else {
      id :| id in txs;
    }
  }

  /** Its next statement is enabled. */
  lemma CanGoOn(s: State, id: nat)
    requires id in s.txs && Unobstructed(s.txs, id)
    ensures Forward(Issuing(id, Next(s.txs[id].pc))) && CanIssue(s, id, Next(s.txs[id].pc))
  {
    hide HasKey, HasCode, CodeFor, AttemptKey, AttemptStockKey;
  }

  /** Nothing of the transactions changes but that this one is gone or has less left. */
  ghost predicate GoneOrFurther(txs: map<nat, Tx>, txs': map<nat, Tx>, id: nat)
    requires id in txs
  {
    || txs' == Without(txs, id)
    || (id in txs' && txs' == txs[id := txs'[id]] && StatementsLeft(txs'[id].pc) < StatementsLeft(txs[id].pc))
  }

  lemma BodyGoesOn(s: State, id: nat, step: IssueStep)
    requires CanIssue(s, id, step) && InBody(step) && id in IssueNext(s, id, step).txs && id in s.txs
    ensures StatementsLeft(IssueNext(s, id, step).txs[id].pc) < StatementsLeft(s.txs[id].pc)
  {
    hide HasKey, HasCode, CodeFor, AttemptKey, AttemptStockKey, CodeFree, KeyFree, StockFree;
  }

  lemma EndGoesOn(s: State, id: nat, step: IssueStep)
    requires CanIssue(s, id, step) && (step.Commit? || step.ReadStock? || step.SetCache?) && id in s.txs
    ensures GoneOrFurther(s.txs, IssueNext(s, id, step).txs, id)
  {
    hide Write, AttemptStockKey;
  }

  /** And takes it forward, to its end at last. */
  lemma GoesOn(s: State, id: nat)
    requires id in s.txs && CanIssue(s, id, Next(s.txs[id].pc))
    ensures GoneOrFurther(s.txs, IssueNext(s, id, Next(s.txs[id].pc)).txs, id)
  {
    hide CanIssue, IssueNext, StatementsLeft, Without;
    var step := Next(s.txs[id].pc);
    if InBody(step) {
      BodyStaysPut(s, id, step);
      if id in IssueNext(s, id, step).txs { BodyGoesOn(s, id, step); }
    } else {
      EndGoesOn(s, id, step);
    }
  }

  lemma GoingOn(s: State, id: nat)
    requires id in s.txs && Unobstructed(s.txs, id)
    ensures Forward(Issuing(id, Next(s.txs[id].pc))) && CanIssue(s, id, Next(s.txs[id].pc))
    ensures var txs' := IssueNext(s, id, Next(s.txs[id].pc)).txs;
            || txs' == Without(s.txs, id)
            || (&& id in txs' && txs' == s.txs[id := txs'[id]]
                && StatementsLeft(txs'[id].pc) < StatementsLeft(s.txs[id].pc) && Unobstructed(txs', id))
  {
    CanGoOn(s, id);
    GoesOn(s, id);
    hide CanIssue, IssueNext, Next, HoldsStock, HoldsCode, HoldsRow, StatementsLeft, Forward;
  }

  lemma {:induction false} RunsJoin(s: State, xs: seq<Step>, ys: seq<Step>)
    requires Runs(s, xs) && Runs(After(s, xs), ys)
    ensures Runs(s, xs + ys) && After(s, xs + ys) == After(After(s, xs), ys)
    decreases xs
  {
    if xs == [] {
      assert xs + ys == ys;
    } else {
      assert (xs + ys)[1..] == xs[1..] + ys;
      RunsJoin(Apply(s, xs[0]), xs[1..], ys);
    }
  }

  /** An unobstructed transaction can be run to its end on its own. */
  lemma {:induction false} RunToEnd(s: State, id: nat) returns (steps: seq<Step>)
    requires id in s.txs && Unobstructed(s.txs, id)
    ensures Runs(s, steps) && After(s, steps).txs == Without(s.txs, id)
    ensures forall i | 0 <= i < |steps| :: Forward(steps[i])
    decreases StatementsLeft(s.txs[id].pc)
  {
    var step := Issuing(id, Next(s.txs[id].pc));
    GoingOn(s, id);
    var s' := Apply(s, step);
    hide *;
    if id in s'.txs {
      var rest := RunToEnd(s', id);
      Prepend(s, step, rest);
      WithoutThis(s.txs, s'.txs, id);
      steps := [step] + rest;
    } else {
      OneStep(s, step);
      steps := [step];
    }
  }

  lemma Prepend(s: State, step: Step, rest: seq<Step>)
    requires Enabled(s, step) && Runs(Apply(s, step), rest)
    ensures Runs(s, [step] + rest) && After(s, [step] + rest) == After(Apply(s, step), rest)
  {
    hide Enabled, Apply;
    assert ([step] + rest)[1..] == rest;
  }

  lemma OneStep(s: State, step: Step)
    requires Enabled(s, step)
    ensures Runs(s, [step]) && After(s, [step]) == Apply(s, step)
  {
    hide Enabled, Apply;
    assert [step][1..] == [] && Runs(Apply(s, step), []);
  }

  lemma WithoutThis(txs: map<nat, Tx>, txs': map<nat, Tx>, id: nat)
    requires id in txs' && txs' == txs[id := txs'[id]]
    ensures Without(txs', id) == Without(txs, id)
  {}

  /**
   * From every state, whatever locks are held, there is a way to complete every transaction
   * without aborting any of them.
   */
  lemma {:induction false} EverythingCanFinish(s: State) returns (steps: seq<Step>)
    ensures Runs(s, steps) && After(s, steps).txs == map[]
    ensures forall i | 0 <= i < |steps| :: Forward(steps[i])
    decreases |s.txs|
  {
    if s.txs == map[] {
      steps := [];
    } else {
      var id := SomeoneCanGo(s.txs);
      var first := RunToEnd(s, id);
      assert Without(s.txs, id).Keys == s.txs.Keys - {id};
      var rest := EverythingCanFinish(After(s, first));
      RunsJoin(s, first, rest);
      steps := first + rest;
    }
  }
}
