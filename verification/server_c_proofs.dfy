/** Every step of server-c keeps every invariant. */
module ServerCProofs {
  import opened Payloads
  import opened CouponDb
  import opened ServerC

  // ---------------------------------------------------------------- issue transactions

  /** Moving one transaction on without touching the tables. */
  lemma TxMoves(s: State, id: nat, tx: Tx)
    requires Inv(s) && id in s.txs
    requires TxOk(s.events, s.db, tx)
    requires forall j | j in s.txs && j != id :: Compatible(tx, s.txs[j])
    requires AttemptStockKey(tx.a) == AttemptStockKey(s.txs[id].a)
    requires Finishing(s.txs[id].pc) ==> Finishing(tx.pc)
    ensures Inv(s.(txs := s.txs[id := tx]))
  {
    var txs := s.txs[id := tx];
    forall j | j in s.txs && j != id ensures Compatible(s.txs[j], tx) {
      assert Compatible(tx, s.txs[j]);
    }
    assert Exclusive(txs);
    PendingStays(s.txs, txs, s.db.stock, s.cache, s.skipped, s.cache, s.skipped, id);
  }

  /** A post-commit check disappears only when it is done, was skipped, or had nothing to report. */
  lemma PendingStays(txs: map<nat, Tx>, txs': map<nat, Tx>, stock: map<StockKey, Stock>,
                     cache: set<StockKey>, skipped: set<StockKey>, cache': set<StockKey>, skipped': set<StockKey>,
                     id: nat)
    requires CacheComplete(stock, cache, skipped, txs) && id in txs
    requires cache <= cache' && skipped <= skipped'
    requires forall j | j in txs && j != id :: j in txs' && txs'[j] == txs[j]
    requires var k := AttemptStockKey(txs[id].a);
             Finishing(txs[id].pc) ==>
               || k in cache' || k in skipped'
               || (k in stock && stock[k].available != 0)
               || (id in txs' && Finishing(txs'[id].pc) && AttemptStockKey(txs'[id].a) == k)
    ensures CacheComplete(stock, cache', skipped', txs')
  {
    forall k | k in stock && stock[k].available == 0 < stock[k].total && k !in cache && k !in skipped
      ensures k in cache' || k in skipped' || PostPending(txs', k)
    {
      var i :| i in txs && Finishing(txs[i].pc) && AttemptStockKey(txs[i].a) == k;
      if i != id { assert Finishing(txs'[i].pc); }
    }
  }

  /** Ending a transaction that leaves no check behind: an abort, a rollback, or a check that is done. */
  lemma TxEnds(s: State, id: nat, cache: set<StockKey>, skipped: set<StockKey>)
    requires Inv(s) && id in s.txs
    requires s.cache <= cache && s.skipped <= skipped
    requires forall k | k in cache && k !in s.cache :: k in s.db.stock && s.db.stock[k].available == 0
    requires var k := AttemptStockKey(s.txs[id].a);
             Finishing(s.txs[id].pc) ==> k in cache || k in skipped || (k in s.db.stock && s.db.stock[k].available != 0)
    ensures Inv(s.(txs := Without(s.txs, id), cache := cache, skipped := skipped))
  {
    PendingStays(s.txs, Without(s.txs, id), s.db.stock, s.cache, s.skipped, cache, skipped, id);
  }

  /** Another transaction's facts survive a commit that is compatible with it. */
  lemma CommitKeepsOthers(events: map<int, Event>, db: Db, tx: Tx, other: Tx)
    requires tx.pc.Appended? && TxOk(events, db, tx) && TxOk(events, db, other) && Compatible(tx, other)
    requires TablesOk(db)
    ensures TxOk(events, Write(db, tx.a, tx.pc.status, tx.pc.available), other)
  {
    var cs := db.coupons;
    var cs' := cs + [CouponFor(tx.a, tx.pc.status)];
    forall k | HasKey(cs, k) ensures HasKey(cs', k) {
      var i :| 0 <= i < |cs| && CouponKey(cs[i]) == k;
      assert CouponKey(cs'[i]) == k;
    }
    if HoldsCode(other) { assert !HasCode(cs', CodeFor(other.a, other.pc.status)); }
    if HoldsRow(other) { assert !HasKey(cs', AttemptKey(other.a)); }
  }

  /** At its commit a transaction writes exactly what the reference does to the committed tables. */
  lemma CommitIsIssue(events: map<int, Event>, db: Db, tx: Tx)
    requires tx.pc.Appended? && TxOk(events, db, tx)
    ensures Write(db, tx.a, tx.pc.status, tx.pc.available) == Issue(events, db, tx.a)
  {}

  lemma SerialAppend(s: State, op: Op)
    requires Serial(s)
    ensures Replay(s.events, s.db0, s.log + [op]) == ApplyOp(s.events, s.db, op)
  {
    assert (s.log + [op])[..|s.log|] == s.log;
  }

  lemma AppendKeepsChain(outbox: seq<OutboxRow>, p: ResultPayload, topic: seq<ResultPayload>, poller: Poller)
    requires ChainOk(outbox, topic, poller)
    ensures ChainOk(outbox + [OutboxRow(p, false)], topic, poller)
  {
    var out' := outbox + [OutboxRow(p, false)];
    forall m | HasPayload(outbox, m) ensures HasPayload(out', m) {
      var i :| 0 <= i < |outbox| && outbox[i].payload == m;
      assert out'[i].payload == m;
    }
  }

  lemma AnswerKept(cs: seq<Coupon>, cs': seq<Coupon>, a: Answer)
    requires |cs| <= |cs'|
    requires forall i | 0 <= i < |cs| && (cs[i].status.Used? || cs[i].usedAt.Some?) :: cs'[i] == cs[i]
    requires AnswerOk(cs, a)
    ensures AnswerOk(cs', a)
  {
    if TellsUse(a.reply) {
      var i :| 0 <= i < |cs| && cs[i].code == a.code && cs[i].userId == a.userId && cs[i].usedAt == Some(a.reply.at);
      assert cs'[i] == cs[i];
    }
    if a.reply.RaceRetry? {
      var i :| 0 <= i < |cs| && cs[i].code == a.code && cs[i].userId == a.userId && cs[i].status.Used?;
      assert cs'[i] == cs[i];
    }
  }

  lemma AppendKeepsRedeem(cs: seq<Coupon>, c: Coupon, answers: seq<Answer>, calls: map<nat, Call>)
    requires RedeemOk(cs, answers, calls) && !c.status.Used?
    ensures RedeemOk(cs + [c], answers, calls)
  {
    forall i | 0 <= i < |answers| ensures AnswerOk(cs + [c], answers[i]) {
      AnswerKept(cs, cs + [c], answers[i]);
    }
  }

  lemma CommitKeepsTxs(s: State, id: nat, next: map<nat, Tx>)
    requires Inv(s) && id in s.txs && s.txs[id].pc.Appended?
    requires forall i | i in next ::
               || (i == id && next[i] == s.txs[i].(pc := PostRead) && !s.txs[id].pc.status.Failed?)
               || (i != id && i in s.txs && next[i] == s.txs[i])
    ensures TxsOk(s.events, CommitWrites(s, id).db, next) && Exclusive(next)
  {
    var tx := s.txs[id];
    var db' := CommitWrites(s, id).db;
    assert db' == Write(s.db, tx.a, tx.pc.status, tx.pc.available);
    assert TxOk(s.events, s.db, tx);
    if id in next { assert TxOk(s.events, db', next[id]); }
    forall i | i in next && i != id ensures TxOk(s.events, db', next[i]) {
      CommitKeepsOthers(s.events, s.db, tx, s.txs[i]);
    }
  }

  lemma CommitKeepsCache(s: State, id: nat, next: map<nat, Tx>, skipped: set<StockKey>)
    requires Inv(s) && id in s.txs && s.txs[id].pc.Appended?
    requires s.skipped <= skipped
    requires forall i | i in s.txs && i != id :: i in next && next[i] == s.txs[i]
    requires || (id in next && next[id] == s.txs[id].(pc := PostRead))
             || s.txs[id].pc.status.Failed? || AttemptStockKey(s.txs[id].a) in skipped
    ensures CacheSound(CommitWrites(s, id).db.stock, s.cache)
    ensures CacheComplete(CommitWrites(s, id).db.stock, s.cache, skipped, next)
  {
    var tx := s.txs[id];
    var stock' := CommitWrites(s, id).db.stock;
    forall k | k in stock' && stock'[k].available == 0 < stock'[k].total && k !in s.cache && k !in skipped
      ensures PostPending(next, k)
    {
      if k == AttemptStockKey(tx.a) && !tx.pc.status.Failed? {
        assert id in next && Finishing(next[id].pc);
      } else {
        assert PostPending(s.txs, k);
        var i :| i in s.txs && Finishing(s.txs[i].pc) && AttemptStockKey(s.txs[i].a) == k;
        assert Finishing(next[i].pc);
      }
    }
  }

  lemma CommitKeepsInv(s: State, id: nat, next: map<nat, Tx>, skipped: set<StockKey>)
    requires Inv(s) && id in s.txs && s.txs[id].pc.Appended?
    requires forall i | i in next ::
               || (i == id && next[i] == s.txs[i].(pc := PostRead) && !s.txs[id].pc.status.Failed?)
               || (i != id && i in s.txs && next[i] == s.txs[i])
    requires forall i | i in s.txs && i != id :: i in next
    requires s.skipped <= skipped
    requires id in next || s.txs[id].pc.status.Failed? || AttemptStockKey(s.txs[id].a) in skipped
    ensures Inv(CommitWrites(s, id).(txs := next, skipped := skipped))
  {
    var tx := s.txs[id];
    CommitKeepsTxs(s, id, next);
    CommitKeepsCache(s, id, next, skipped);
    CommitIsIssue(s.events, s.db, tx);
    SerialAppend(s, IssueOp(tx.a));
    IssueKeepsTables(s.events, s.db, tx.a);
    AppendKeepsChain(s.db.outbox, ToResultPayload(tx.a, tx.pc.status), s.topic, s.poller);
    AppendKeepsRedeem(s.db.coupons, CouponFor(tx.a, tx.pc.status), s.answers, s.calls);
  }

  lemma BegunHoldsNothing(events: map<int, Event>, db: Db, txs: map<nat, Tx>, id: nat, a: Attempt)
    requires TxsOk(events, db, txs) && Exclusive(txs) && id !in txs && ValidRequest(a.req)
    ensures TxsOk(events, db, txs[id := Tx(a, Begun)]) && Exclusive(txs[id := Tx(a, Begun)])
  {
    hide StillDecided, RowAbsent, ValidRequest;
  }

  lemma BegunLeavesChecks(stock: map<StockKey, Stock>, cache: set<StockKey>, skipped: set<StockKey>, txs: map<nat, Tx>,
                          id: nat, a: Attempt)
    requires CacheComplete(stock, cache, skipped, txs) && id !in txs
    ensures CacheComplete(stock, cache, skipped, txs[id := Tx(a, Begun)])
  {
    var txs' := txs[id := Tx(a, Begun)];
    forall k | PostPending(txs, k) ensures PostPending(txs', k) {
      var i :| i in txs && Finishing(txs[i].pc) && AttemptStockKey(txs[i].a) == k;
      assert Finishing(txs'[i].pc);
    }
  }

  lemma BeginKeepsInv(s: State, id: nat, a: Attempt)
    requires Inv(s) && CanIssue(s, id, Begin(a))
    ensures Inv(IssueNext(s, id, Begin(a)))
  {
    hide TablesOk, TxsOk, Exclusive, ChainOk, CacheSound, CacheComplete, RedeemOk;
    BegunHoldsNothing(s.events, s.db, s.txs, id, a);
    BegunLeavesChecks(s.db.stock, s.cache, s.skipped, s.txs, id, a);
  }

  /** The statements of the issue transaction between its begin and its commit. */
  predicate InBody(step: IssueStep) {
    step.ExistsCheck? || step.EventCheck? || step.LockStock? || step.Decrement?
    || step.InsertCode? || step.InsertKey? || step.AppendOutbox?
  }

  lemma IssueStepKeepsInv(s: State, id: nat, step: IssueStep)
    requires Inv(s) && CanIssue(s, id, step) && InBody(step)
    ensures Inv(IssueNext(s, id, step))
  {
    var s' := IssueNext(s, id, step);
    BodyStaysPut(s, id, step);
    assert TxOk(s.events, s.db, s.txs[id]);
    hide CanIssue, IssueNext;
    if id in s'.txs {
      MovedTxOk(s, id, step);
      MovedTxApart(s, id, step);
      TxMoves(s, id, s'.txs[id]);
    } else {
      TxEnds(s, id, s.cache, s.skipped);
    }
  }

  lemma BodyStaysPut(s: State, id: nat, step: IssueStep)
    requires CanIssue(s, id, step) && InBody(step)
    ensures var s' := IssueNext(s, id, step);
            && id in s.txs && !Finishing(s.txs[id].pc)
            && (s' == s.(txs := Without(s.txs, id))
                || (&& id in s'.txs && s' == s.(txs := s.txs[id := s'.txs[id]]) && s'.txs[id].a == s.txs[id].a))
  {}

  /** What a statement lets its transaction know. */
  lemma MovedTxOk(s: State, id: nat, step: IssueStep)
    requires CanIssue(s, id, step) && InBody(step) && id in IssueNext(s, id, step).txs
    requires TxOk(s.events, s.db, s.txs[id])
    ensures TxOk(s.events, s.db, IssueNext(s, id, step).txs[id])
  {}

  lemma MovedPairApart(s: State, id: nat, step: IssueStep, j: nat)
    requires CanIssue(s, id, step) && InBody(step) && id in IssueNext(s, id, step).txs
    requires j in s.txs && j != id && Compatible(s.txs[id], s.txs[j])
    ensures Compatible(IssueNext(s, id, step).txs[id], s.txs[j])
  {
    hide HasKey, HasCode, CodeFor, AttemptKey, ValidRequest, StillDecided;
    match step
    case LockStock => assert !(HoldsStock(s.txs[j]) && AttemptStockKey(s.txs[j].a) == AttemptStockKey(s.txs[id].a));
    case InsertCode => assert !CodeClash(s.txs[id], s.txs[j]);
    case InsertKey => assert !KeyClash(s.txs[id], s.txs[j]);
    case _ =>
  }

  /** Which locks a statement may take. */
  lemma MovedTxApart(s: State, id: nat, step: IssueStep)
    requires Exclusive(s.txs) && CanIssue(s, id, step) && InBody(step) && id in IssueNext(s, id, step).txs
    requires id in s.txs
    ensures forall j | j in s.txs && j != id :: Compatible(IssueNext(s, id, step).txs[id], s.txs[j])
  {
    hide CanIssue, IssueNext, Compatible, InBody;
    forall j | j in s.txs && j != id ensures Compatible(IssueNext(s, id, step).txs[id], s.txs[j]) {
      MovedPairApart(s, id, step, j);
    }
  }

  /** The ends of a transaction and of the check after it. */
  lemma EndStepKeepsInv(s: State, id: nat, step: IssueStep)
    requires Inv(s) && CanIssue(s, id, step)
    requires step.Abort? || step.SetCache? || step.SkipPost?
    ensures Inv(IssueNext(s, id, step))
  {
    assert TxOk(s.events, s.db, s.txs[id]);
    TxEnds(s, id, IssueNext(s, id, step).cache, IssueNext(s, id, step).skipped);
  }

  lemma ReadStockKeepsInv(s: State, id: nat)
    requires Inv(s) && CanIssue(s, id, ReadStock)
    ensures Inv(IssueNext(s, id, ReadStock))
  {
    var tx := s.txs[id];
    assert TxOk(s.events, s.db, tx);
    if s.db.stock[AttemptStockKey(tx.a)].available == 0 {
      TxMoves(s, id, tx.(pc := PostSet));
    } else {
      TxEnds(s, id, s.cache, s.skipped);
    }
  }

  lemma CommitStepKeepsInv(s: State, id: nat, step: IssueStep)
    requires Inv(s) && CanIssue(s, id, step)
    requires step.Commit? || step.CommitThenCrash?
    ensures Inv(IssueNext(s, id, step))
  {
    var s' := IssueNext(s, id, step);
    assert TxOk(s.events, s.db, s.txs[id]);
    if s.txs[id].pc.Short? {
      TxEnds(s, id, s.cache, s.skipped);
      SerialAppend(s, IssueOp(s.txs[id].a));
    } else {
      CommitKeepsInv(s, id, s'.txs, s'.skipped);
    }
  }

  // ---------------------------------------------------------------- the outbox poller

  lemma PollStepKeepsInv(s: State, step: PollStep)
    requires Inv(s) && CanPoll(s, step)
    requires step.PollStart? || step.PollSend? || step.PollCrash?
    ensures Inv(PollNext(s, step))
  {
    var s' := PollNext(s, step);
    assert ChainOk(s'.db.outbox, s'.topic, s'.poller) by {
      if step.PollSend? { SendKeepsChain(s, step.outcome); }
    }
  }

  lemma SendKeepsChain(s: State, outcome: SendOutcome)
    requires ChainOk(s.db.outbox, s.topic, s.poller) && CanSend(s)
    ensures ChainOk(s.db.outbox, Send(s, outcome).topic, Send(s, outcome).poller)
  {
    var i := s.poller.todo[0];
    assert HasPayload(s.db.outbox, s.db.outbox[i].payload);
  }

  lemma PollMarkKeepsInv(s: State)
    requires Inv(s) && CanPoll(s, PollMark)
    ensures Inv(PollNext(s, PollMark))
  {
    var s' := PollNext(s, PollMark);
    MarkKeepsTables(s.db, s.poller.sent);
    SerialAppend(s, MarkOp(s.poller.sent));
    forall m | HasPayload(s.db.outbox, m) ensures HasPayload(s'.db.outbox, m) {
      var i :| 0 <= i < |s.db.outbox| && s.db.outbox[i].payload == m;
      assert s'.db.outbox[i].payload == m;
    }
    TxsSeeNoOutbox(s, s'.db);
  }

  lemma TxsSeeNoOutbox(s: State, db: Db)
    requires TxsOk(s.events, s.db, s.txs) && db.stock == s.db.stock && db.coupons == s.db.coupons
    ensures TxsOk(s.events, db, s.txs)
  {
    forall i | i in s.txs ensures TxOk(s.events, db, s.txs[i]) {
      assert TxOk(s.events, s.db, s.txs[i]);
    }
  }

  // ---------------------------------------------------------------- redeem

  /** A reply closes its call; the other calls and the earlier replies are as they were. */
  lemma SayKeepsRedeem(cs: seq<Coupon>, answers: seq<Answer>, calls: map<nat, Call>, id: nat, reply: Reply)
    requires RedeemOk(cs, answers, calls) && id in calls
    requires var a := Answer(calls[id].code, calls[id].userId, calls[id].bornAt, reply);
             && AnswerOk(cs, a) && !Wins(reply)
             && (reply.Replayed? || reply.Broken? || UnsettledAtBirth(answers, calls[id]))
    ensures var a := Answer(calls[id].code, calls[id].userId, calls[id].bornAt, reply);
            RedeemOk(cs, answers + [a], Without(calls, id))
  {
    var a := Answer(calls[id].code, calls[id].userId, calls[id].bornAt, reply);
    var answers' := answers + [a];
    assert CallOk(cs, answers, calls[id]);
    CallsKept(cs, answers, calls, id, a);
    WinnersKept(cs, answers, a);
  }

  lemma CallsKept(cs: seq<Coupon>, answers: seq<Answer>, calls: map<nat, Call>, id: nat, a: Answer)
    requires CallsOk(cs, answers, calls)
    ensures CallsOk(cs, answers + [a], Without(calls, id))
  {
    forall i | i in calls ensures CallOk(cs, answers + [a], calls[i]) {
      assert CallOk(cs, answers, calls[i]);
    }
  }

  lemma WinnersKept(cs: seq<Coupon>, answers: seq<Answer>, a: Answer)
    requires UsedHasWinner(cs, answers)
    ensures UsedHasWinner(cs, answers + [a])
  {
    forall code | HasWinner(answers, code) ensures HasWinner(answers + [a], code) {
      var i :| 0 <= i < |answers| && Wins(answers[i].reply) && answers[i].code == code;
      assert (answers + [a])[i] == answers[i];
    }
  }

  lemma CallBeginKeepsInv(s: State, id: nat, code: string, userId: int)
    requires Inv(s) && CanCall(s, id, CallBegin(code, userId))
    ensures Inv(CallNext(s, id, CallBegin(code, userId)))
  {}

  lemma CallAbortKeepsInv(s: State, id: nat)
    requires Inv(s) && CanCall(s, id, CallAbort)
    ensures Inv(CallNext(s, id, CallAbort))
  {
    SayKeepsRedeem(s.db.coupons, s.answers, s.calls, id, Broken);
  }

  lemma CallReadKeepsInv(s: State, id: nat)
    requires Inv(s) && CanCall(s, id, CallRead)
    ensures Inv(CallNext(s, id, CallRead))
  {
    var c := s.calls[id];
    var cs := s.db.coupons;
    var row := FindCode(cs, c.code);
    if row.None? || cs[row.value].userId != c.userId {
      NotTheOwner(cs, s.answers, c);
      SayKeepsRedeem(cs, s.answers, s.calls, id, NotFound);
    } else if cs[row.value].usedAt.Some? {
      assert UseMarked(cs[row.value]);
      SayKeepsRedeem(cs, s.answers, s.calls, id, Replayed(cs[row.value].usedAt.value));
    } else if !cs[row.value].status.Success? {
      assert UseMarked(cs[row.value]);
      NobodySettled(cs, s.answers, row.value);
      SayKeepsRedeem(cs, s.answers, s.calls, id, InvalidState);
    } else {
      NobodySettled(cs, s.answers, row.value);
      assert CallOk(cs, s.answers, c.(pc := Read(row.value, cs[row.value].version)));
    }
  }

  /** For whoever is not the owner of a code nothing was ever settled. */
  lemma NotTheOwner(cs: seq<Coupon>, answers: seq<Answer>, c: Call)
    requires AnswersOk(cs, answers)
    requires forall i | 0 <= i < |cs| && cs[i].code == c.code :: cs[i].userId != c.userId
    ensures UnsettledAtBirth(answers, c)
  {
    assert !UsedBy(cs, c.code, c.userId);
    assert forall at :: !UsedByAt(cs, c.code, c.userId, at);
    forall i | 0 <= i < |answers| && SameCaller(answers[i], c.code, c.userId) ensures !Settles(answers[i].reply) {
      assert AnswerOk(cs, answers[i]);
    }
  }

  /** While a coupon is unused, nobody has been told otherwise. */
  lemma NobodySettled(cs: seq<Coupon>, answers: seq<Answer>, row: nat)
    requires AnswersOk(cs, answers) && OnePerUser(cs) && row < |cs| && cs[row].usedAt.None? && !cs[row].status.Used?
    ensures forall i | 0 <= i < |answers| && answers[i].code == cs[row].code :: !Settles(answers[i].reply)
  {
    assert forall u :: !UsedBy(cs, cs[row].code, u);
    assert forall u, at :: !UsedByAt(cs, cs[row].code, u, at);
    forall i | 0 <= i < |answers| && answers[i].code == cs[row].code ensures !Settles(answers[i].reply) {
      assert AnswerOk(cs, answers[i]);
    }
  }

  lemma CallUpdateKeepsInv(s: State, id: nat, now: int)
    requires Inv(s) && CanCall(s, id, CallUpdate(now))
    ensures Inv(CallNext(s, id, CallUpdate(now)))
  {
    var c := s.calls[id];
    var cs := s.db.coupons;
    assert CallOk(cs, s.answers, c);
    assert UseMarked(cs[c.pc.row]);
    if cs[c.pc.row].version == c.pc.version {
      var calls := s.calls[id := c.(pc := Updated(c.pc.row, c.pc.version, now))];
      forall j | j in s.calls && j != id ensures Apart(calls[id], s.calls[j]) && Apart(s.calls[j], calls[id]) {}
      assert CallsOk(cs, s.answers, calls);
    } else {
      assert UsedBy(cs, c.code, c.userId);
      SayKeepsRedeem(cs, s.answers, s.calls, id, RaceRetry);
    }
  }

  lemma CallCommitKeepsInv(s: State, id: nat, heard: bool)
    requires Inv(s) && CanCall(s, id, CallCommit(heard))
    ensures Inv(CallNext(s, id, CallCommit(heard)))
  {
    var s' := CallNext(s, id, CallCommit(heard));
    var c := s.calls[id];
    var cs := s.db.coupons;
    assert CallOk(cs, s.answers, c) && UseMarked(cs[c.pc.row]);
    UseKeepsTables(s.db, c.pc.row, c.pc.now);
    SerialAppend(s, RedeemOp(c.pc.row, c.pc.version, c.pc.now));
    UseKeepsTxs(s, c.pc.row, c.pc.version, c.pc.now);
    UseKeepsRedeem(s, id, heard);
  }

  /** Using a coupon changes neither keys nor codes, so issue transactions do not notice. */
  lemma UseKeepsTxs(s: State, row: nat, version: nat, now: int)
    requires TxsOk(s.events, s.db, s.txs)
    ensures TxsOk(s.events, s.db.(coupons := MarkUsed(s.db.coupons, row, version, now)), s.txs)
  {
    var cs := s.db.coupons;
    var cs' := MarkUsed(cs, row, version, now);
    assert |cs'| == |cs| && forall i | 0 <= i < |cs| :: CouponKey(cs'[i]) == CouponKey(cs[i]) && cs'[i].code == cs[i].code;
    forall k ensures HasKey(cs, k) == HasKey(cs', k) {
      if HasKey(cs, k) { var i :| 0 <= i < |cs| && CouponKey(cs[i]) == k; assert CouponKey(cs'[i]) == k; }
    }
    forall code ensures HasCode(cs, code) == HasCode(cs', code) {
      if HasCode(cs, code) { var i :| 0 <= i < |cs| && cs[i].code == code; assert cs'[i].code == code; }
    }
    var db' := s.db.(coupons := cs');
    forall i | i in s.txs ensures TxOk(s.events, db', s.txs[i]) {
      assert TxOk(s.events, s.db, s.txs[i]);
    }
  }

  /** cs' is cs with the row of this call used at the time the answer tells. */
  ghost predicate UsesRow(cs: seq<Coupon>, cs': seq<Coupon>, c: Call, a: Answer) {
    && c.pc.Updated? && c.pc.row < |cs| == |cs'|
    && cs[c.pc.row].status.Success? && UseMarked(cs[c.pc.row])
    && cs[c.pc.row].code == c.code && cs[c.pc.row].userId == c.userId
    && a.code == c.code && a.userId == c.userId && a.bornAt == c.bornAt && Wins(a.reply)
    && cs'[c.pc.row] == cs[c.pc.row].(status := Used, usedAt := Some(a.reply.at), version := cs[c.pc.row].version + 1)
    && forall i | 0 <= i < |cs| && i != c.pc.row :: cs'[i] == cs[i]
  }

  lemma UseKeepsAnswers(cs: seq<Coupon>, cs': seq<Coupon>, answers: seq<Answer>, c: Call, a: Answer)
    requires AnswersOk(cs, answers) && UsesRow(cs, cs', c, a) && c.bornAt <= |answers|
    ensures AnswersOk(cs', answers + [a])
  {
    forall i | 0 <= i < |answers| ensures AnswerOk(cs', answers[i]) {
      AnswerKept(cs, cs', answers[i]);
    }
    assert cs'[c.pc.row].code == a.code && cs'[c.pc.row].userId == a.userId;
  }

  lemma UseIsTheFirst(cs: seq<Coupon>, cs': seq<Coupon>, answers: seq<Answer>, c: Call, a: Answer)
    requires AnswersOk(cs, answers) && OnePerUser(cs) && UsesRow(cs, cs', c, a)
    requires OneWinner(answers) && UsedHasWinner(cs, answers)
    ensures OneWinner(answers + [a]) && UsedHasWinner(cs', answers + [a])
  {
    NobodySettled(cs, answers, c.pc.row);
    WinnersKept(cs, answers, a);
    var answers' := answers + [a];
    assert Wins(answers'[|answers|].reply) && HasWinner(answers', a.code);
    hide AnswersOk, OnePerUser;
  }

  lemma UseKeepsOrder(answers: seq<Answer>, c: Call, a: Answer)
    requires SettledReplays(answers) && UnsettledAtBirth(answers, c)
    requires a.code == c.code && a.userId == c.userId && a.bornAt == c.bornAt
    ensures SettledReplays(answers + [a])
  {}

  lemma UseKeepsRedeem(s: State, id: nat, heard: bool)
    requires Inv(s) && CanCall(s, id, CallCommit(heard))
    ensures var s' := CallNext(s, id, CallCommit(heard)); RedeemOk(s'.db.coupons, s'.answers, s'.calls)
  {
    var s' := CallNext(s, id, CallCommit(heard));
    var c := s.calls[id];
    var cs, cs' := s.db.coupons, s'.db.coupons;
    var a := s'.answers[|s.answers|];
    assert CallOk(cs, s.answers, c) && UseMarked(cs[c.pc.row]);
    assert UsesRow(cs, cs', c, a);
    assert OnePerUser(cs);
    hide Inv, CallNext, CanCall, TablesOk, UsesRow;
    hide AnswersOk, OneWinner, UsedHasWinner, SettledReplays, CallsOk, OnePerUser;
    UseKeepsAnswers(cs, cs', s.answers, c, a);
    UseIsTheFirst(cs, cs', s.answers, c, a);
    UseKeepsOrder(s.answers, c, a);
    RowUsed(cs, cs', c, a);
    UpdatedCallsKept(cs, cs', s.answers, a, s.calls, id, Without(s.calls, id));
  }

  lemma RowUsed(cs: seq<Coupon>, cs': seq<Coupon>, c: Call, a: Answer)
    requires UsesRow(cs, cs', c, a)
    ensures |cs'| == |cs|
    ensures forall i | 0 <= i < |cs| ::
              && cs'[i].code == cs[i].code && cs'[i].userId == cs[i].userId && Granted(cs'[i]) == Granted(cs[i])
              && (i != c.pc.row ==> cs'[i] == cs[i])
  {}

  /** The committing call held the row, so no other call stands on an update of it. */
  lemma UpdatedCallsKept(cs: seq<Coupon>, cs': seq<Coupon>, answers: seq<Answer>, a: Answer,
                         calls: map<nat, Call>, id: nat, calls': map<nat, Call>)
    requires CallsOk(cs, answers, calls) && id in calls && calls[id].pc.Updated?
    requires calls' == Without(calls, id)
    requires |cs'| == |cs|
    requires forall i | 0 <= i < |cs| ::
               && cs'[i].code == cs[i].code && cs'[i].userId == cs[i].userId && Granted(cs'[i]) == Granted(cs[i])
               && (i != calls[id].pc.row ==> cs'[i] == cs[i])
    ensures CallsOk(cs', answers + [a], calls')
  {
    forall i | i in calls' ensures CallOk(cs', answers + [a], calls'[i]) {
      assert CallOk(cs, answers, calls[i]) && Apart(calls[i], calls[id]);
    }
  }

  // ---------------------------------------------------------------- all of them

  lemma IssuingKeepsInv(s: State, id: nat, step: IssueStep)
    requires Inv(s) && CanIssue(s, id, step)
    ensures Inv(IssueNext(s, id, step))
  {
    hide Inv, CanIssue, IssueNext;
    match step
    case Begin(a) => BeginKeepsInv(s, id, a);
    case Commit => CommitStepKeepsInv(s, id, step);
    case CommitThenCrash => CommitStepKeepsInv(s, id, step);
    case ReadStock => ReadStockKeepsInv(s, id);
    case Abort => EndStepKeepsInv(s, id, step);
    case SetCache => EndStepKeepsInv(s, id, step);
    case SkipPost => EndStepKeepsInv(s, id, step);
    case _ => IssueStepKeepsInv(s, id, step);
  }

  lemma RedeemingKeepsInv(s: State, id: nat, step: CallStep)
    requires Inv(s) && CanCall(s, id, step)
    ensures Inv(CallNext(s, id, step))
  {
    hide *;
    match step
    case CallBegin(code, userId) => CallBeginKeepsInv(s, id, code, userId);
    case CallRead => CallReadKeepsInv(s, id);
    case CallUpdate(now) => CallUpdateKeepsInv(s, id, now);
    case CallCommit(heard) => CallCommitKeepsInv(s, id, heard);
    case CallAbort => CallAbortKeepsInv(s, id);
  }

  lemma RelayingKeepsInv(s: State, step: PollStep)
    requires Inv(s) && CanPoll(s, step)
    ensures Inv(PollNext(s, step))
  {
    hide *;
    if step.PollMark? { PollMarkKeepsInv(s); } else { PollStepKeepsInv(s, step); }
  }

  lemma StepKeepsInv(s: State, step: Step)
    requires Inv(s) && Enabled(s, step)
    ensures Inv(Apply(s, step))
  {
    hide Inv, CanIssue, CanCall, CanPoll, IssueNext, CallNext, PollNext;
    match step
    case Issuing(id, st) => IssuingKeepsInv(s, id, st);
    case Redeeming(id, st) => RedeemingKeepsInv(s, id, st);
    case Relaying(st) => RelayingKeepsInv(s, st);
  }

  lemma InitHasInv(s: State)
    requires Init(s)
    ensures Inv(s)
  {
    FreshTablesOk(s.db);
  }

  lemma {:induction false} RunKeepsInv(s: State, steps: seq<Step>)
    requires Inv(s) && Runs(s, steps)
    ensures Inv(After(s, steps))
    decreases steps
  {
    hide Inv, Enabled, Apply;
    if steps != [] {
      StepKeepsInv(s, steps[0]);
      RunKeepsInv(Apply(s, steps[0]), steps[1..]);
    }
  }
}
