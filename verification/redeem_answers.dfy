/**
 * What the answers of redeem mean: what a call is told follows from the row it finds, the owner of
 * an unused coupon can use it, and nobody is refused for another reason than the row's status.
 */
module RedeemAnswers {
  import opened Payloads
  import opened CouponDb
  import opened ServerC
  import opened ServerCProofs
  import CT = ServerCTheorems

  /** This row is the caller's coupon. */
  predicate IsCallers(cs: seq<Coupon>, row: int, code: string, userId: int) {
    0 <= row < |cs| && cs[row].code == code && cs[row].userId == userId
  }

  /** The call is over with this answer, and nothing else happened. */
  predicate Told(s: State, s': State, id: nat, reply: Reply) {
    && id in s.calls
    && s' == s.(calls := s.calls - {id},
                answers := s.answers + [Answer(s.calls[id].code, s.calls[id].userId, s.calls[id].bornAt, reply)])
  }

  lemma OneRowPerCode(s: State, row: nat)
    requires Inv(s) && row < |s.db.coupons|
    ensures UseMarked(s.db.coupons[row])
    ensures forall i | 0 <= i < |s.db.coupons| && s.db.coupons[i].code == s.db.coupons[row].code :: i == row
  {
    assert OnePerUser(s.db.coupons);
  }

  /** Saying something takes the call away and adds the answer. */
  lemma SayingIsTelling(s: State, id: nat, reply: Reply)
    requires id in s.calls
    ensures Told(s, Say(s, id, reply), id, reply)
  {
    assert Without(s.calls, id) == s.calls - {id};
  }

  /** What a call is told, or how it goes on, from the row it finds. */
  lemma WhatTheReadDecides(s: State, id: nat)
    requires Inv(s) && CanCall(s, id, CallRead)
    ensures var c := s.calls[id]; var cs := s.db.coupons; var s' := CallNext(s, id, CallRead);
            && ((forall row :: !IsCallers(cs, row, c.code, c.userId)) ==> Told(s, s', id, NotFound))
            && forall row | IsCallers(cs, row, c.code, c.userId) ::
                 && (cs[row].status == Used ==> cs[row].usedAt.Some? && Told(s, s', id, Replayed(cs[row].usedAt.value)))
                 && (cs[row].status == SoldOut || cs[row].status == Failed ==> Told(s, s', id, InvalidState))
                 && (cs[row].status == Success ==> s' == s.(calls := s.calls[id := c.(pc := Read(row, cs[row].version))]))
  {
    var c := s.calls[id];
    var cs := s.db.coupons;
    var found := FindCode(cs, c.code);
    SayingIsTelling(s, id, NotFound);
    SayingIsTelling(s, id, InvalidState);
    if found.Some? {
      OneRowPerCode(s, found.value);
      assert cs[found.value].userId == c.userId ==> IsCallers(cs, found.value, c.code, c.userId);
      if cs[found.value].usedAt.Some? { SayingIsTelling(s, id, Replayed(cs[found.value].usedAt.value)); }
    }
    hide Inv, Say, Without;
    assert forall row | IsCallers(cs, row, c.code, c.userId) :: found.Some? && row == found.value;
  }

  /** No other call holds the row. */
  predicate NobodyUses(s: State, row: nat) {
    forall j | j in s.calls && s.calls[j].pc.Updated? :: s.calls[j].pc.row != row
  }

  lemma ReadThenUpdate(s: State, id: nat, row: nat, now: int)
    requires Inv(s) && id in s.calls && s.calls[id].pc.Asked? && NobodyUses(s, row)
    requires IsCallers(s.db.coupons, row, s.calls[id].code, s.calls[id].userId) && s.db.coupons[row].status == Success
    ensures var c := s.calls[id]; var s1 := s.(calls := s.calls[id := c.(pc := Read(row, 0))]);
            var s2 := s.(calls := s.calls[id := c.(pc := Updated(row, 0, now))]);
            && Enabled(s, Redeeming(id, CallRead)) && Apply(s, Redeeming(id, CallRead)) == s1
            && Enabled(s1, Redeeming(id, CallUpdate(now))) && Apply(s1, Redeeming(id, CallUpdate(now))) == s2
  {
    WhatTheReadDecides(s, id);
    OneRowPerCode(s, row);
    var c := s.calls[id];
    var s1 := s.(calls := s.calls[id := c.(pc := Read(row, 0))]);
    assert s1.calls[id := c.(pc := Updated(row, 0, now))] == s.calls[id := c.(pc := Updated(row, 0, now))];
    hide Inv, FindCode, UseMarked, ReadCoupon;
  }

  lemma UpdateThenCommit(s: State, id: nat, row: nat, now: int, heard: bool)
    requires id in s.calls && s.calls[id].pc == Updated(row, 0, now)
    requires row < |s.db.coupons| && s.db.coupons[row].version == 0
    ensures var c := s.calls[id]; var s' := Apply(s, Redeeming(id, CallCommit(heard)));
            && Enabled(s, Redeeming(id, CallCommit(heard)))
            && s'.answers == s.answers +
                 [Answer(c.code, c.userId, c.bornAt, if heard then Redeemed(now) else Unheard(now))]
            && s'.db == s.db.(coupons := s.db.coupons[row := s.db.coupons[row].(status := Used, usedAt := Some(now),
                                                                                version := 1)])
            && id !in s'.calls
  {}

  /**
   * The owner of an unused coupon can use it: from every reachable state the three statements of
   * the call, taken in a row, end with the coupon redeemed now and its row used at that time.
   */
  lemma OwnersCanRedeem(s: State, id: nat, row: nat, now: int)
    requires Inv(s) && id in s.calls && s.calls[id].pc.Asked? && NobodyUses(s, row)
    requires IsCallers(s.db.coupons, row, s.calls[id].code, s.calls[id].userId) && s.db.coupons[row].status == Success
    ensures var run := [Redeeming(id, CallRead), Redeeming(id, CallUpdate(now)), Redeeming(id, CallCommit(true))];
            && Runs(s, run)
            && var c, s' := s.calls[id], After(s, run);
               && s'.answers == s.answers + [Answer(c.code, c.userId, c.bornAt, Redeemed(now))]
               && s'.db == s.db.(coupons := s.db.coupons[row := s.db.coupons[row].(status := Used, usedAt := Some(now),
                                                                                   version := 1)])
               && id !in s'.calls
  {
    ReadThenUpdate(s, id, row, now);
    OneRowPerCode(s, row);
    var c := s.calls[id];
    var s1 := s.(calls := s.calls[id := c.(pc := Read(row, 0))]);
    var s2 := s.(calls := s.calls[id := c.(pc := Updated(row, 0, now))]);
    UpdateThenCommit(s2, id, row, now, true);
    hide Inv, Enabled, Apply;
    ThreeSteps(s, Redeeming(id, CallRead), s1, Redeeming(id, CallUpdate(now)), s2, Redeeming(id, CallCommit(true)));
  }

  lemma ThreeSteps(s: State, a: Step, s1: State, b: Step, s2: State, c: Step)
    requires Enabled(s, a) && Apply(s, a) == s1 && Enabled(s1, b) && Apply(s1, b) == s2 && Enabled(s2, c)
    ensures Runs(s, [a, b, c]) && After(s, [a, b, c]) == Apply(s2, c)
  {
    hide Enabled, Apply;
    var s3 := Apply(s2, c);
    assert [a, b, c][1..] == [b, c] && [b, c][1..] == [c] && [c][1..] == [];
    assert Runs(s3, []) && After(s3, []) == s3;
    assert Runs(s2, [c]) && After(s2, [c]) == s3;
    assert Runs(s1, [b, c]) && After(s1, [b, c]) == s3;
  }

  // ---------------------------------------------------------------- over all runs

  /** Whoever is told that the coupon cannot be redeemed owns one that was never granted. */
  ghost predicate SaysWhy(cs: seq<Coupon>, a: Answer) {
    a.reply.InvalidState? ==>
      exists row :: IsCallers(cs, row, a.code, a.userId) && (cs[row].status == SoldOut || cs[row].status == Failed)
  }

  ghost predicate AnswersSayWhy(cs: seq<Coupon>, answers: seq<Answer>) {
    forall i | 0 <= i < |answers| :: SaysWhy(cs, answers[i])
  }

  lemma RowsKeepReasons(cs: seq<Coupon>, cs': seq<Coupon>, answers: seq<Answer>)
    requires AnswersSayWhy(cs, answers) && CT.RowsExtend(cs, cs')
    requires forall i | 0 <= i < |cs| :: cs'[i].userId == cs[i].userId
    ensures AnswersSayWhy(cs', answers)
  {
    forall i | 0 <= i < |answers| ensures SaysWhy(cs', answers[i]) {
      var a := answers[i];
      if a.reply.InvalidState? {
        assert SaysWhy(cs, a);
        var row :| IsCallers(cs, row, a.code, a.userId) && (cs[row].status == SoldOut || cs[row].status == Failed);
        assert IsCallers(cs', row, a.code, a.userId);
      }
    }
  }

  lemma CallStepSaysWhy(s: State, id: nat, step: CallStep)
    requires Inv(s) && CanCall(s, id, step)
    ensures var s' := CallNext(s, id, step);
            || s'.answers == s.answers
            || (|s'.answers| == |s.answers| + 1 && s'.answers[..|s.answers|] == s.answers
                && SaysWhy(s.db.coupons, s'.answers[|s.answers|]))
  {
    if step.CallRead? { OneRowOrNone(s, id); }
    hide Inv, MarkUsed, Without;
  }

  lemma OneRowOrNone(s: State, id: nat)
    requires Inv(s) && CanCall(s, id, CallRead)
    ensures var s' := CallNext(s, id, CallRead);
            || s'.answers == s.answers
            || (|s'.answers| == |s.answers| + 1 && s'.answers[..|s.answers|] == s.answers
                && SaysWhy(s.db.coupons, s'.answers[|s.answers|]))
  {
    var c := s.calls[id];
    var cs := s.db.coupons;
    var found := FindCode(cs, c.code);
    if found.Some? {
      OneRowPerCode(s, found.value);
      assert cs[found.value].userId == c.userId ==> IsCallers(cs, found.value, c.code, c.userId);
    }
    hide Inv, Without;
  }

  lemma OthersDoNotAnswer(s: State, step: Step)
    requires Enabled(s, step) && !step.Redeeming?
    ensures Apply(s, step).answers == s.answers
  {
    hide CanIssue, CanCall, CanPoll, IssueNext, PollNext;
    match step
    case Issuing(id, st) => IssuesDoNotAnswer(s, id, st);
    case Relaying(st) => PollsDoNotAnswer(s, st);
  }

  lemma IssuesDoNotAnswer(s: State, id: nat, step: IssueStep)
    requires CanIssue(s, id, step)
    ensures IssueNext(s, id, step).answers == s.answers
  {
    hide HasKey, HasCode, CodeFree, KeyFree, StockFree, ValidRequest, CodeFor, Write;
  }

  lemma PollsDoNotAnswer(s: State, step: PollStep)
    requires CanPoll(s, step)
    ensures PollNext(s, step).answers == s.answers
  {}

  lemma StepSaysWhy(s: State, step: Step)
    requires Inv(s) && AnswersSayWhy(s.db.coupons, s.answers) && Enabled(s, step)
    ensures AnswersSayWhy(Apply(s, step).db.coupons, Apply(s, step).answers)
  {
    var s' := Apply(s, step);
    CT.StepExtendsRows(s, step);
    if step.Redeeming? {
      CallStepSaysWhy(s, step.id, step.call);
    } else {
      OthersDoNotAnswer(s, step);
    }
    hide Inv, Enabled, Apply, SaysWhy;
    OneMoreReason(s.db.coupons, s.answers, s'.answers);
    KeysKeepUsers(s.db.coupons, s'.db.coupons);
    RowsKeepReasons(s.db.coupons, s'.db.coupons, s'.answers);
  }

  lemma OneMoreReason(cs: seq<Coupon>, answers: seq<Answer>, answers': seq<Answer>)
    requires AnswersSayWhy(cs, answers)
    requires answers' == answers || (|answers'| == |answers| + 1 && answers'[..|answers|] == answers
                                     && SaysWhy(cs, answers'[|answers|]))
    ensures AnswersSayWhy(cs, answers')
  {
    hide SaysWhy;
    forall i | 0 <= i < |answers'| ensures SaysWhy(cs, answers'[i]) {
      if i < |answers| { assert answers'[..|answers|][i] == answers[i]; }
    }
  }

  lemma KeysKeepUsers(cs: seq<Coupon>, cs': seq<Coupon>)
    requires CT.RowsExtend(cs, cs')
    ensures forall i | 0 <= i < |cs| :: cs'[i].userId == cs[i].userId
  {
    assert forall i | 0 <= i < |cs| :: CouponKey(cs'[i]) == CouponKey(cs[i]);
  }

  lemma {:induction false} RunSaysWhy(s: State, steps: seq<Step>)
    requires Inv(s) && AnswersSayWhy(s.db.coupons, s.answers) && Runs(s, steps)
    ensures AnswersSayWhy(After(s, steps).db.coupons, After(s, steps).answers)
    decreases steps
  {
    hide Inv, Enabled, Apply, AnswersSayWhy;
    if steps != [] {
      StepSaysWhy(s, steps[0]);
      StepKeepsInv(s, steps[0]);
      RunSaysWhy(Apply(s, steps[0]), steps[1..]);
    }
  }

  /** Over every run: who is refused for the state of the coupon owns a sold-out or failed row with that code. */
  lemma RefusedMeansNeverGranted(s: State, steps: seq<Step>, i: nat)
    requires Init(s) && Runs(s, steps) && i < |After(s, steps).answers| && After(s, steps).answers[i].reply.InvalidState?
    ensures var cs, a := After(s, steps).db.coupons, After(s, steps).answers[i];
            exists row :: 0 <= row < |cs| && cs[row].code == a.code && cs[row].userId == a.userId
                          && (cs[row].status == SoldOut || cs[row].status == Failed)
  {
    InitHasInv(s);
    RunSaysWhy(s, steps);
    assert SaysWhy(After(s, steps).db.coupons, After(s, steps).answers[i]);
  }
}
