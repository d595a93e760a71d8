/**
 * What is in the sold-out cache: exactly the stock that was asked for and is gone, once the checks
 * after the commits have run.
 */
module SoldOutCache {
  import opened Payloads
  import opened CouponDb
  import opened ServerC
  import opened ServerCProofs

  /** The requests that got as far as this stock. */
  function AskedFor(cs: seq<Coupon>, k: StockKey): nat {
    Count(cs, k, IsGranted) + Count(cs, k, IsTurnedAway)
  }

  /** Behind every check and every cached key there is a request; behind every refusal there is a check. */
  ghost predicate ChecksOk(s: State) {
    && (forall k | k in s.cache || PostPending(s.txs, k) :: AskedFor(s.db.coupons, k) > 0)
    && forall k | Count(s.db.coupons, k, IsTurnedAway) > 0 :: Checked(s, k)
  }

  ghost predicate Checked(s: State, k: StockKey) {
    k in s.cache || k in s.skipped || PostPending(s.txs, k)
  }

  // ---------------------------------------------------------------- checks come and go

  predicate Checking(txs: map<nat, Tx>, id: nat, k: StockKey) {
    id in txs && Finishing(txs[id].pc) && AttemptStockKey(txs[id].a) == k
  }

  predicate OthersStay(txs: map<nat, Tx>, txs': map<nat, Tx>, id: nat) {
    && (forall i | i in txs && i != id :: i in txs' && txs'[i] == txs[i])
    && forall i | i in txs' && i != id :: i in txs
  }

  lemma PendingIsSomeones(txs: map<nat, Tx>, txs': map<nat, Tx>, id: nat, k: StockKey)
    requires OthersStay(txs, txs', id)
    ensures PostPending(txs', k) ==> PostPending(txs, k) || Checking(txs', id, k)
    ensures PostPending(txs, k) ==> PostPending(txs', k) || Checking(txs, id, k)
    ensures Checking(txs', id, k) ==> PostPending(txs', k)
  {
    if PostPending(txs', k) {
      var i :| i in txs' && Finishing(txs'[i].pc) && AttemptStockKey(txs'[i].a) == k;
      if i != id { assert Finishing(txs[i].pc); }
    }
    if PostPending(txs, k) {
      var i :| i in txs && Finishing(txs[i].pc) && AttemptStockKey(txs[i].a) == k;
      if i != id { assert Finishing(txs'[i].pc); }
    }
  }

  /** A step of one transaction that begins no check, and ends one only when it was answered. */
  predicate Quiet(s: State, s': State, id: nat) {
    && OthersStay(s.txs, s'.txs, id) && s'.db == s.db && s.cache <= s'.cache && s.skipped <= s'.skipped
    && (id in s'.txs && Finishing(s'.txs[id].pc) ==>
          id in s.txs && Finishing(s.txs[id].pc) && s'.txs[id].a == s.txs[id].a)
    && (forall k | k in s'.cache && k !in s.cache :: Checking(s.txs, id, k))
    && (id in s.txs && Finishing(s.txs[id].pc) ==>
          var k := AttemptStockKey(s.txs[id].a);
          Checking(s'.txs, id, k) || k in s'.cache || k in s'.skipped || !(k in s.db.stock && s.db.stock[k].available == 0))
  }

  lemma BodyIsQuiet(s: State, id: nat, step: IssueStep)
    requires CanIssue(s, id, step) && InBody(step)
    ensures Quiet(s, IssueNext(s, id, step), id)
  {
    BodyStaysPut(s, id, step);
    BodyStartsNoCheck(s, id, step);
    hide CanIssue, IssueNext;
  }

  lemma BodyStartsNoCheck(s: State, id: nat, step: IssueStep)
    requires CanIssue(s, id, step) && InBody(step)
    ensures var s' := IssueNext(s, id, step); id in s'.txs ==> !Finishing(s'.txs[id].pc)
  {
    hide HasKey, HasCode, CodeFree, KeyFree, StockFree, ValidRequest, CodeFor;
  }

  lemma EndsAreQuiet(s: State, id: nat, step: IssueStep)
    requires CanIssue(s, id, step) && !InBody(step) && !step.Commit? && !step.CommitThenCrash?
    ensures Quiet(s, IssueNext(s, id, step), id)
  {
    hide ValidRequest;
  }

  lemma {:induction false} TurnedAwayMeansGone(db: Db, cs: seq<Coupon>, k: StockKey)
    requires SoldOutOnlyAtZero(db) && cs <= db.coupons && Count(cs, k, IsTurnedAway) > 0
    ensures k in db.stock && db.stock[k].available == 0
  {
    var n := |cs| - 1;
    if OfKind(cs[n], k, IsTurnedAway) {
      assert db.coupons[n].status.SoldOut? && CouponStockKey(db.coupons[n]) == k;
    } else {
      TurnedAwayMeansGone(db, cs[..n], k);
    }
  }

  lemma InvHasTables(s: State)
    requires Inv(s)
    ensures SoldOutOnlyAtZero(s.db) && TablesOk(s.db)
  {}

  lemma QuietStepKeepsChecks(s: State, s': State, id: nat)
    requires Inv(s) && ChecksOk(s) && Quiet(s, s', id)
    ensures ChecksOk(s')
  {
    InvHasTables(s);
    hide Inv, TablesOk, SoldOutOnlyAtZero, AskedFor, Count, PostPending, OthersStay;
    forall k | k in s'.cache || PostPending(s'.txs, k) ensures AskedFor(s'.db.coupons, k) > 0 {
      PendingIsSomeones(s.txs, s'.txs, id, k);
      PendingFromOne(s.txs, id, k);
    }
    forall k | Count(s'.db.coupons, k, IsTurnedAway) > 0 ensures Checked(s', k) {
      TurnedAwayMeansGone(s.db, s.db.coupons, k);
      PendingIsSomeones(s.txs, s'.txs, id, k);
    }
  }

  lemma PendingFromOne(txs: map<nat, Tx>, id: nat, k: StockKey)
    ensures Checking(txs, id, k) ==> PostPending(txs, k)
  {}

  /** A commit brings its row and, after a stock decision, the check; or the process dies. */
  lemma CommitShape(s: State, id: nat, step: IssueStep)
    requires CanIssue(s, id, step) && (step.Commit? || step.CommitThenCrash?) && s.txs[id].pc.Appended?
    ensures var s' := IssueNext(s, id, step); var tx := s.txs[id]; var k := AttemptStockKey(tx.a);
            && OthersStay(s.txs, s'.txs, id) && s'.cache == s.cache && s.skipped <= s'.skipped
            && s'.db.coupons == s.db.coupons + [CouponFor(tx.a, tx.pc.status)]
            && (Checking(s'.txs, id, k) || k in s'.skipped || tx.pc.status.Failed?)
            && (forall k' | Checking(s'.txs, id, k') :: k' == k && !tx.pc.status.Failed?)
            && forall k' :: !Checking(s.txs, id, k')
  {
    hide HasKey, HasCode;
  }

  lemma NewRowCounts(s: State, tx: Tx, k: StockKey)
    requires Inv(s) && tx.pc.Appended? && TxOk(s.events, s.db, tx)
    ensures var cs, cs' := s.db.coupons, s.db.coupons + [CouponFor(tx.a, tx.pc.status)];
            var mine := k == AttemptStockKey(tx.a);
            && AskedFor(cs', k) == AskedFor(cs, k) + (if mine && !tx.pc.status.Failed? then 1 else 0)
            && (Count(cs', k, IsTurnedAway) > 0 ==> Count(cs, k, IsTurnedAway) > 0 || (mine && !tx.pc.status.Failed?))
  {
    CountAppend(s.db.coupons, CouponFor(tx.a, tx.pc.status), k, IsGranted);
    CountAppend(s.db.coupons, CouponFor(tx.a, tx.pc.status), k, IsTurnedAway);
    hide Inv, Count, CodeFor, RowAbsent;
  }

  lemma InvHasTx(s: State, id: nat)
    requires Inv(s) && id in s.txs
    ensures TxOk(s.events, s.db, s.txs[id])
  {}

  lemma CommitKeepsChecks(s: State, id: nat, step: IssueStep)
    requires Inv(s) && ChecksOk(s)
    requires CanIssue(s, id, step) && (step.Commit? || step.CommitThenCrash?) && s.txs[id].pc.Appended?
    ensures ChecksOk(IssueNext(s, id, step))
  {
    var s' := IssueNext(s, id, step);
    CommitShape(s, id, step);
    InvHasTx(s, id);
    hide Inv, TxOk, CanIssue, IssueNext, AskedFor, Count, PostPending, Checking, OthersStay, CouponFor;
    forall k | k in s'.cache || PostPending(s'.txs, k) ensures AskedFor(s'.db.coupons, k) > 0 {
      NewRowCounts(s, s.txs[id], k);
      PendingIsSomeones(s.txs, s'.txs, id, k);
    }
    forall k | Count(s'.db.coupons, k, IsTurnedAway) > 0 ensures Checked(s', k) {
      NewRowCounts(s, s.txs[id], k);
      PendingIsSomeones(s.txs, s'.txs, id, k);
    }
  }

  lemma ShortIsQuiet(s: State, id: nat)
    requires CanIssue(s, id, Commit) && s.txs[id].pc.Short?
    ensures Quiet(s, IssueNext(s, id, Commit), id)
  {}

  /** Redeeming changes a granted row into a granted row, polling none. */
  lemma OthersKeepChecks(s: State, s': State)
    requires ChecksOk(s) && s'.txs == s.txs && s'.cache == s.cache && s'.skipped == s.skipped
    requires forall k, kind :: Count(s'.db.coupons, k, kind) == Count(s.db.coupons, k, kind)
    ensures ChecksOk(s')
  {
    hide Count, PostPending;
  }

  lemma InvHasCall(s: State, id: nat)
    requires Inv(s) && id in s.calls && s.calls[id].pc.Updated?
    ensures s.calls[id].pc.row < |s.db.coupons| && s.db.coupons[s.calls[id].pc.row].status.Success?
  {
    assert CallOk(s.db.coupons, s.answers, s.calls[id]);
  }

  lemma UseKeepsCounts(cs: seq<Coupon>, row: nat, version: nat, now: int, k: StockKey, kind: Kind)
    requires row < |cs| && cs[row].status.Success?
    ensures Count(MarkUsed(cs, row, version, now), k, kind) == Count(cs, k, kind)
  {
    CountUpdate(cs, row, cs[row].(status := Used, usedAt := Some(now), version := version + 1), k, kind);
    hide Count;
  }

  lemma CallsWrite(s: State, id: nat, step: CallStep)
    requires CanCall(s, id, step)
    ensures CallNext(s, id, step).db.coupons ==
            if step.CallCommit? then MarkUsed(s.db.coupons, s.calls[id].pc.row, s.calls[id].pc.version, s.calls[id].pc.now)
            else s.db.coupons
    ensures step.CallCommit? ==> id in s.calls && s.calls[id].pc.Updated?
  {}

  lemma CallsKeepCounts(s: State, id: nat, step: CallStep, k: StockKey, kind: Kind)
    requires Inv(s) && CanCall(s, id, step)
    ensures Count(CallNext(s, id, step).db.coupons, k, kind) == Count(s.db.coupons, k, kind)
  {
    hide *;
    CallsWrite(s, id, step);
    if step.CallCommit? {
      InvHasCall(s, id);
      var pc := s.calls[id].pc;
      UseKeepsCounts(s.db.coupons, pc.row, pc.version, pc.now, k, kind);
    }
  }

  lemma CallsLeaveChecks(s: State, id: nat, step: CallStep)
    requires CanCall(s, id, step)
    ensures var s' := CallNext(s, id, step); s'.txs == s.txs && s'.cache == s.cache && s'.skipped == s.skipped
  {}

  lemma PollsLeaveChecks(s: State, step: PollStep)
    requires CanPoll(s, step)
    ensures var s' := PollNext(s, step);
            s'.txs == s.txs && s'.cache == s.cache && s'.skipped == s.skipped && s'.db.coupons == s.db.coupons
  {}

  lemma IssuingKeepsChecks(s: State, id: nat, step: IssueStep)
    requires Inv(s) && ChecksOk(s) && CanIssue(s, id, step)
    ensures ChecksOk(IssueNext(s, id, step))
  {
    hide Inv, ChecksOk, IssueNext, Quiet;
    if step.Commit? || step.CommitThenCrash? {
      if s.txs[id].pc.Appended? {
        CommitKeepsChecks(s, id, step);
      } else {
        ShortIsQuiet(s, id);
        QuietStepKeepsChecks(s, IssueNext(s, id, step), id);
      }
    } else {
      if InBody(step) { BodyIsQuiet(s, id, step); } else { EndsAreQuiet(s, id, step); }
      QuietStepKeepsChecks(s, IssueNext(s, id, step), id);
    }
  }

  lemma StepKeepsChecks(s: State, step: Step)
    requires Inv(s) && ChecksOk(s) && Enabled(s, step)
    ensures ChecksOk(Apply(s, step))
  {
    hide Inv, ChecksOk, CanIssue, CanCall, CanPoll, IssueNext, CallNext, PollNext, Count;
    match step
    case Issuing(id, st) => IssuingKeepsChecks(s, id, st);
    case Redeeming(id, st) =>
      CallsLeaveChecks(s, id, st);
      forall k, kind ensures Count(CallNext(s, id, st).db.coupons, k, kind) == Count(s.db.coupons, k, kind) {
        CallsKeepCounts(s, id, st, k, kind);
      }
      OthersKeepChecks(s, CallNext(s, id, st));
    case Relaying(st) =>
      PollsLeaveChecks(s, st);
      OthersKeepChecks(s, PollNext(s, st));
  }

  lemma {:induction false} RunKeepsChecks(s: State, steps: seq<Step>)
    requires Inv(s) && ChecksOk(s) && Runs(s, steps)
    ensures ChecksOk(After(s, steps))
    decreases steps
  {
    hide Inv, ChecksOk, Enabled, Apply;
    if steps != [] {
      StepKeepsChecks(s, steps[0]);
      StepKeepsInv(s, steps[0]);
      RunKeepsChecks(Apply(s, steps[0]), steps[1..]);
    }
  }

  lemma NothingIsChecked(s: State)
    requires Init(s)
    ensures ChecksOk(s)
  {}

  /**
   * After any run a stock is in the cache exactly when somebody asked for it and it is gone, unless
   * one of its checks is still to come or was lost. Stock that starts at 0 is thus cached by its
   * first request, and not before.
   */
  lemma DepletedStockIsCached(s: State, steps: seq<Step>, k: StockKey)
    requires Init(s) && Runs(s, steps)
    requires k !in After(s, steps).skipped && !PostPending(After(s, steps).txs, k)
    ensures var s' := After(s, steps);
            && (k in s'.cache <==> k in s'.db.stock && s'.db.stock[k].available == 0 && AskedFor(s'.db.coupons, k) > 0)
            && (k in s'.db.stock && s'.db.stock[k].available == 0 < s'.db.stock[k].total ==> k in s'.cache)
  {
    InitHasInv(s);
    NothingIsChecked(s);
    RunKeepsInv(s, steps);
    RunKeepsChecks(s, steps);
    CacheTells(After(s, steps), k);
  }

  lemma CacheTells(s: State, k: StockKey)
    requires Inv(s) && ChecksOk(s) && k !in s.skipped && !PostPending(s.txs, k)
    ensures k in s.cache <==> k in s.db.stock && s.db.stock[k].available == 0 && AskedFor(s.db.coupons, k) > 0
    ensures k in s.db.stock && s.db.stock[k].available == 0 < s.db.stock[k].total ==> k in s.cache
  {
    hide Count, PostPending;
  }
}
