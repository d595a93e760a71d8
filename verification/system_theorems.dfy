/** What the whole system guarantees over every run. */
module SystemTheorems {
  import opened Payloads
  import opened CouponDb
  import opened Redis
  import opened System
  import opened SystemProofs
  import C = ServerC

  // ---------------------------------------------------------------- agreement

  /** server-c's row for the key, if there is one. */
  predicate RowAt(cs: seq<Coupon>, k: Key, i: int) {
    0 <= i < |cs| && CouponKey(cs[i]) == k
  }

  /** What Redis says about one key, against what server-c's table says. */
  ghost predicate Agrees(cs: seq<Coupon>, max: int, k: Key, h: Hash) {
    && (h.status == Some(SUCCESS) ==> exists i :: RowAt(cs, k, i) && Granted(cs[i]))
    && (h.status == Some(SOLD_OUT) ==> exists i :: RowAt(cs, k, i) && cs[i].status.SoldOut?)
    && (h.status == Some(FAILED) ==>
          || (exists i :: RowAt(cs, k, i) && cs[i].status.Failed?)
          || (h.attempts.Some? && h.attempts.value == max))
    && (h.code.Some? ==> exists i :: RowAt(cs, k, i) && cs[i].code == h.code.value)
  }

  lemma StatusOkAgrees(cs: seq<Coupon>, max: int, givenUp: set<Key>, k: Key, h: Hash)
    requires StatusOk(cs, max, givenUp, k, h) && (h.attempts.Some? ==> h.attempts.value <= max)
    ensures Agrees(cs, max, k, h)
  {
    if Terminal(h) && RowMaps(cs, k, h.status.value) {
      var i :| 0 <= i < |cs| && CouponKey(cs[i]) == k && MapRowStatus(cs[i].status) == h.status.value;
      assert RowAt(cs, k, i);
    }
    if h.code.Some? {
      var i :| 0 <= i < |cs| && CouponKey(cs[i]) == k && cs[i].code == h.code.value;
      assert RowAt(cs, k, i);
    }
  }

  /**
   * Whatever outcome Redis shows, and whichever path wrote it, server-c has the row for it, with
   * the same code; the one exception is a give-up, after the last attempt and never before.
   */
  lemma EndToEndAgreement(s: State, steps: seq<Step>, k: Key)
    requires Init(s) && Runs(s, steps) && k in After(s, steps).redis.hashes
    ensures var s' := After(s, steps); Agrees(s'.c.db.coupons, s'.max, k, s'.redis.hashes[k])
  {
    InitHasInv(s);
    RunKeepsInv(s, steps);
    var s' := After(s, steps);
    StatusOkAgrees(s'.c.db.coupons, s'.max, s'.givenUp, k, s'.redis.hashes[k]);
  }

  /** An outcome that is not a give-up is the outcome of the row. */
  lemma StatusOkIsExact(cs: seq<Coupon>, max: int, givenUp: set<Key>, k: Key, h: Hash)
    requires StatusOk(cs, max, givenUp, k, h) && OnePerUser(cs) && Terminal(h) && k !in givenUp
    ensures exists i :: RowAt(cs, k, i)
    ensures forall i | RowAt(cs, k, i) :: h.status == Some(MapRowStatus(cs[i].status))
  {
    var i :| 0 <= i < |cs| && CouponKey(cs[i]) == k && MapRowStatus(cs[i].status) == h.status.value;
    assert RowAt(cs, k, i);
  }

  /** For a key that was never given up the agreement is two-sided: still pending, or exactly the row's outcome. */
  lemma NeverGivenUpMeansExact(s: State, steps: seq<Step>, k: Key)
    requires Init(s) && Runs(s, steps) && k in After(s, steps).redis.hashes && k !in After(s, steps).givenUp
    ensures var s' := After(s, steps); var h := s'.redis.hashes[k]; var cs := s'.c.db.coupons;
            Terminal(h) ==>
              && (exists i :: RowAt(cs, k, i))
              && forall i | RowAt(cs, k, i) :: h.status == Some(MapRowStatus(cs[i].status))
  {
    InitHasInv(s);
    RunKeepsInv(s, steps);
    var s' := After(s, steps);
    if Terminal(s'.redis.hashes[k]) {
      StatusOkIsExact(s'.c.db.coupons, s'.max, s'.givenUp, k, s'.redis.hashes[k]);
    }
  }

  // ---------------------------------------------------------------- nothing accepted is lost

  /** Once accept has answered ACCEPTED the scheduler can find the key, or its outcome is written. */
  lemma NoAcceptedRequestIsLost(s: State, steps: seq<Step>)
    requires Init(s) && Runs(s, steps)
    ensures var s' := After(s, steps);
            && (forall k | k in s'.accepted :: Filled(s'.redis, k) && Tracked(s'.redis, k))
            && (forall k | k in s'.redis.zset :: Filled(s'.redis, k) && ReadPending(k, s'.redis.hashes[k]).Some?)
  {
    InitHasInv(s);
    RunKeepsInv(s, steps);
  }

  /** An application whose accept was cut off before its ZADD: a hash, and nobody working on it. */
  ghost predicate CutOff(s: State, k: Key) {
    && k in s.redis.hashes && k !in s.enlisted
    && forall i | i in s.accepts :: s.accepts[i].key != k
  }

  /** With no accept under way, an application can be recovered exactly when its ZADD was reached. */
  lemma RecoverableIffEnlisted(s: State, steps: seq<Step>, k: Key)
    requires Init(s) && Runs(s, steps) && k in After(s, steps).redis.hashes
    requires forall i | i in After(s, steps).accepts :: After(s, steps).accepts[i].key != k
    ensures Tracked(After(s, steps).redis, k) <==> !CutOff(After(s, steps), k)
  {
    InitHasInv(s);
    RunKeepsInv(s, steps);
  }

  /** What a step leaves in place for one key. */
  ghost predicate Onward(s: State, s': State, k: Key) {
    && s'.max == s.max && s.enlisted <= s'.enlisted && s.accepted <= s'.accepted
    && (k in s.redis.hashes ==> k in s'.redis.hashes)
    && (k in s.redis.hashes && Terminal(s.redis.hashes[k]) ==> Terminal(s'.redis.hashes[k]))
    && (HashOf(s.redis, k).requestId.Some? ==>
          && HashOf(s'.redis, k).requestId == HashOf(s.redis, k).requestId
          && HashOf(s'.redis, k).eventId == HashOf(s.redis, k).eventId
          && HashOf(s'.redis, k).createdAt == HashOf(s.redis, k).createdAt)
    && (CutOff(s, k) ==> CutOff(s', k))
    && AttemptsOf(s, k) <= AttemptsOf(s', k)
  }

  /** publishAttempts; an application that has no counter yet is at its first. */
  function AttemptsOf(s: State, k: Key): int {
    if k in s.redis.hashes && s.redis.hashes[k].attempts.Some? then s.redis.hashes[k].attempts.value else 1
  }

  lemma TouchIsOnward(s: State, s': State, t: Key, k: Key)
    requires t in s.enlisted && Touches(s.redis, s'.redis, t)
    requires s'.redis.hashes[t].attempts == s.redis.hashes[t].attempts
             || AttemptsOf(s', t) == AttemptsOf(s, t) + 1
    requires s'.enlisted == s.enlisted && s'.accepted == s.accepted && s'.accepts == s.accepts && s'.max == s.max
    ensures Onward(s, s', k)
  {}

  lemma ClaimIsOnward(s: State, id: nat, step: AcceptStep, k: Key)
    requires step.Claim? && CanAccept(s, id, step) && EnlistedOk(s.redis, s.enlisted)
    requires forall j | j in s.redis.hashes :: s.redis.hashes[j].userId.Some?
    ensures Onward(s, AcceptNext(s, id, step), k)
  {}

  lemma AcceptBodyIsOnward(s: State, id: nat, step: AcceptStep, k: Key)
    requires !step.Claim? && CanAccept(s, id, step) && AcceptOk(s.redis, s.enlisted, s.accepts[id])
    requires EnlistedOk(s.redis, s.enlisted)
    ensures Onward(s, AcceptNext(s, id, step), k)
  {}

  lemma AcceptingIsOnward(s: State, id: nat, step: AcceptStep, k: Key)
    requires Inv(s) && CanAccept(s, id, step)
    ensures Onward(s, AcceptNext(s, id, step), k)
  {
    assert EnlistedOk(s.redis, s.enlisted);
    assert forall j | j in s.redis.hashes :: s.redis.hashes[j].userId.Some?;
    if step.Claim? {
      hide Inv, EnlistedOk, AcceptNext, Onward;
      ClaimIsOnward(s, id, step, k);
    } else {
      assert AcceptOk(s.redis, s.enlisted, s.accepts[id]);
      hide Inv, EnlistedOk, AcceptOk, AcceptNext, Onward;
      AcceptBodyIsOnward(s, id, step, k);
    }
  }

  lemma NothingIsOnward(s: State, s': State, k: Key)
    requires s'.redis == s.redis && s'.max == s.max
    requires s'.enlisted == s.enlisted && s'.accepted == s.accepted && s'.accepts == s.accepts
    ensures Onward(s, s', k)
  {}

  lemma ConsumingIsOnward(s: State, id: nat, step: MarkStep, k: Key)
    requires Inv(s) && CanMark(s, id, step)
    ensures Onward(s, MarkingNext(s, id, step), k)
  {
    if step.MarkNext? { assert MarkOk(s.redis, s.enlisted, s.marks[id]); }
    hide Inv, MarkOk, MarkCommand, MarkAfter, Onward, MarkOf;
    if step.MarkNext? {
      MarkIsOnward(s, MarkingNext(s, id, step), s.marks[id], k);
    } else {
      NothingIsOnward(s, MarkingNext(s, id, step), k);
    }
  }

  lemma MarkIsOnward(s: State, s': State, m: Mark, k: Key)
    requires MarkOk(s.redis, s.enlisted, m)
    requires s'.redis == MarkCommand(s.redis, m)
    requires s'.enlisted == s.enlisted && s'.accepted == s.accepted && s'.accepts == s.accepts && s'.max == s.max
    ensures Onward(s, s', k)
  {
    assert Touches(s.redis, s'.redis, m.key);
    hide MarkCommand;
    TouchIsOnward(s, s', m.key, k);
  }

  /** A step that sends k's application again. */
  predicate Resends(s: State, step: Step, k: Key) {
    && step.Recovering? && step.sched.RepublishNext?
    && s.sched.Republishing? && s.sched.pc.Resending? && s.sched.p.key == k
  }

  /** An attempt that is counted but not yet sent. */
  function Owed(s: State, k: Key): int {
    if s.sched.Republishing? && !s.sched.pc.Counting? && s.sched.p.key == k then 1 else 0
  }

  /** Attempts counted minus attempts owed never falls, and rises by one with every resend. */
  ghost predicate Paid(s: State, s': State, k: Key, resends: bool) {
    AttemptsOf(s, k) - Owed(s, k) + (if resends then 1 else 0) <= AttemptsOf(s', k) - Owed(s', k)
  }

  lemma RepublishCommandTouches(s: State)
    requires s.sched.Republishing? && !s.sched.pc.Resending? && Filled(s.redis, s.sched.p.key)
    ensures var s' := RepublishStep(s, false);
            && Touches(s.redis, s'.redis, s.sched.p.key)
            && AttemptsOf(s', s.sched.p.key) == AttemptsOf(s, s.sched.p.key) + (if s.sched.pc.Counting? then 1 else 0)
            && s' == s.(redis := s'.redis, sched := s'.sched)
            && s'.sched.Republishing? && s'.sched == s.sched.(pc := s'.sched.pc) && !s'.sched.pc.Counting?
  {}

  lemma CountedIsPaid(s: State, s': State, k: Key)
    requires s.sched.Republishing? && Touches(s.redis, s'.redis, s.sched.p.key)
    requires AttemptsOf(s', s.sched.p.key) == AttemptsOf(s, s.sched.p.key) + (if s.sched.pc.Counting? then 1 else 0)
    requires s'.sched.Republishing? && s'.sched == s.sched.(pc := s'.sched.pc) && !s'.sched.pc.Counting?
    ensures Paid(s, s', k, false)
  {}

  lemma ResendIsPaid(s: State, ok: bool, k: Key)
    requires s.sched.Republishing? && s.sched.pc.Resending?
    ensures var s' := RepublishStep(s, ok); Onward(s, s', k) && Paid(s, s', k, s.sched.p.key == k)
  {}

  lemma RepublishIsOnward(s: State, ok: bool, k: Key)
    requires Inv(s) && CanSchedule(s, RepublishNext(ok))
    ensures var s' := RepublishStep(s, ok);
            Onward(s, s', k) && Paid(s, s', k, Resends(s, Recovering(RepublishNext(ok)), k))
  {
    var s' := RepublishStep(s, ok);
    assert Filled(s.redis, s.sched.p.key);
    if s.sched.pc.Resending? {
      hide Inv, Filled, RepublishStep, Onward, Paid;
      ResendIsPaid(s, ok, k);
    } else {
      assert RepublishStep(s, ok) == RepublishStep(s, false);
      RepublishCommandTouches(s);
      hide Inv, RepublishStep, Touches, Filled, Onward, Paid;
      TouchIsOnward(s, s', s.sched.p.key, k);
      CountedIsPaid(s, s', k);
    }
  }

  lemma SchedMarkIsOnward(s: State, k: Key)
    requires s.sched.Marking? && MarkOk(s.redis, s.enlisted, s.sched.mark)
    ensures var s' := SchedNext(s, SchedMarkNext); Onward(s, s', k) && Paid(s, s', k, false)
  {
    var s' := SchedNext(s, SchedMarkNext);
    MarkIsOnward(s, s', s.sched.mark, k);
    hide MarkCommand, MarkAfter;
  }

  lemma SchedReadIsOnward(s: State, step: SchedStep, k: Key)
    requires CanSchedule(s, step) && !step.RepublishNext? && !step.SchedMarkNext?
    requires step.FetchOne? && s.sched.todo != [] ==> s.sched.todo[0] in s.redis.hashes
    ensures var s' := SchedNext(s, step); Onward(s, s', k) && Paid(s, s', k, false)
  {}

  lemma RecoveringIsOnward(s: State, step: SchedStep, k: Key)
    requires Inv(s) && CanSchedule(s, step)
    ensures var s' := SchedNext(s, step); Onward(s, s', k) && Paid(s, s', k, Resends(s, Recovering(step), k))
  {
    if step.RepublishNext? {
      hide Inv, RepublishStep;
      RepublishIsOnward(s, step.ok, k);
    } else if step.SchedMarkNext? {
      assert MarkOk(s.redis, s.enlisted, s.sched.mark);
      hide Inv, SchedNext, Onward, Paid;
      SchedMarkIsOnward(s, k);
    } else {
      if step.FetchOne? && s.sched.todo != [] { assert Filled(s.redis, s.sched.todo[0]); }
      hide Inv, SchedNext, Onward, Paid;
      SchedReadIsOnward(s, step, k);
    }
  }

  lemma StepIsOnward(s: State, step: Step, k: Key)
    requires Inv(s) && Enabled(s, step)
    ensures var s' := Apply(s, step);
            && Onward(s, s', k)
            && Paid(s, s', k, Resends(s, step, k))
  {
    hide Inv, CanAccept, AcceptNext, CanMark, MarkingNext, CanSchedule, SchedNext;
    match step
    case Server(st) =>
    case Accepting(id, st) => AcceptingIsOnward(s, id, st, k); OthersLeaveScheduler(s, step);
    case Consuming(id, st) => ConsumingIsOnward(s, id, st, k); OthersLeaveScheduler(s, step);
    case Recovering(st) => RecoveringIsOnward(s, st, k);
    case LateSend(m) =>
  }

  lemma OthersLeaveScheduler(s: State, step: Step)
    requires Enabled(s, step) && (step.Accepting? || step.Consuming?)
    ensures Apply(s, step).sched == s.sched
  {}

  /** Cut off is cut off for ever: no later step tracks the key or accepts it. */
  lemma {:induction false} CutOffStaysCutOff(s: State, steps: seq<Step>, k: Key)
    requires Inv(s) && Runs(s, steps) && CutOff(s, k)
    ensures var s' := After(s, steps); CutOff(s', k) && !Tracked(s'.redis, k) && k !in s'.accepted
    decreases steps
  {
    if steps != [] {
      StepIsOnward(s, steps[0], k);
      StepKeepsInv(s, steps[0]);
      hide Inv, Enabled, Apply;
      CutOffStaysCutOff(Apply(s, steps[0]), steps[1..], k);
    }
  }

  /** And it can happen: the process dies after HSETNX, and a second application is a duplicate. */
  lemma AcceptCanBeCutOff(s: State, k: Key, requestId: string, again: string, eventId: int, now: int)
    requires Init(s)
    ensures var run := [Accepting(0, Claim(k, requestId, eventId, now)), Accepting(0, AcceptFails),
                        Accepting(1, Claim(k, again, eventId, now + 1))];
            Runs(s, run) && CutOff(After(s, run), k) && After(s, run).accepts == map[]
  {
    var run := [Accepting(0, Claim(k, requestId, eventId, now)), Accepting(0, AcceptFails),
                Accepting(1, Claim(k, again, eventId, now + 1))];
    hide C.Init;
    var s1 := Apply(s, run[0]);
    var s2 := Apply(s1, run[1]);
    var s3 := Apply(s2, run[2]);
    assert run[1..] == [run[1], run[2]] && run[1..][1..] == [run[2]] && run[1..][1..][1..] == [];
    assert Runs(s3, []) && After(s3, []) == s3;
    assert Runs(s2, [run[2]]) && After(s2, [run[2]]) == s3;
    assert Runs(s1, run[1..]) && After(s1, run[1..]) == s3;
  }

  /** No step and no run turns an outcome back into PENDING. */
  lemma {:induction false} OutcomesStay(s: State, steps: seq<Step>, k: Key)
    requires Inv(s) && Runs(s, steps) && k in s.redis.hashes && Terminal(s.redis.hashes[k])
    ensures k in After(s, steps).redis.hashes && Terminal(After(s, steps).redis.hashes[k])
    decreases steps
  {
    if steps != [] {
      StepIsOnward(s, steps[0], k);
      StepKeepsInv(s, steps[0]);
      hide Inv, Enabled, Apply;
      OutcomesStay(Apply(s, steps[0]), steps[1..], k);
    }
  }

  // ---------------------------------------------------------------- messages

  /** Every message of an application, first sent or sent again, is the same message, and a valid one. */
  lemma OneMessagePerApplication(s: State, steps: seq<Step>)
    requires Init(s) && Runs(s, steps)
    ensures var requests := After(s, steps).requests;
            && (forall m | m in requests :: ValidRequest(m))
            && forall m, n | m in requests && n in requests && RequestKey(m) == RequestKey(n) :: m == n
  {
    InitHasInv(s);
    RunKeepsInv(s, steps);
    var s' := After(s, steps);
    forall m, n | m in s'.requests && n in s'.requests && RequestKey(m) == RequestKey(n)
      ensures ValidRequest(m) && m == n
    {
      assert MessageOk(s'.redis, s'.enlisted, m) && MessageOk(s'.redis, s'.enlisted, n);
    }
  }

  /** However many accepts race for a key, the first HSET stores one requestId, once and for all. */
  lemma {:induction false} RequestIdIsStoredOnce(s: State, steps: seq<Step>, k: Key)
    requires Inv(s) && Runs(s, steps) && HashOf(s.redis, k).requestId.Some?
    ensures var h, h' := HashOf(s.redis, k), HashOf(After(s, steps).redis, k);
            h'.requestId == h.requestId && h'.eventId == h.eventId && h'.createdAt == h.createdAt
    decreases steps
  {
    if steps != [] {
      StepIsOnward(s, steps[0], k);
      StepKeepsInv(s, steps[0]);
      hide Inv, Enabled, Apply;
      RequestIdIsStoredOnce(Apply(s, steps[0]), steps[1..], k);
    }
  }

  /** The stored application is one the check refuses, for its user, event, coupon type or request id. */
  predicate Refused(k: Key, h: Hash) {
    h.requestId.Some? && h.eventId.Some? && h.createdAt.Some?
    && !ValidRequest(FirstPayload(k, h.requestId.value, h.eventId.value, h.createdAt.value))
  }

  lemma RefusedIsNeverAsked(r: Redis, e: set<Key>, requests: seq<RequestPayload>, sending: set<RequestPayload>, k: Key)
    requires MessagesOk(r, e, requests, sending) && k in r.hashes && Refused(k, r.hashes[k])
    ensures k !in Asked(requests) && forall m | m in sending :: RequestKey(m) != k
  {
    forall m | m in requests || m in sending ensures RequestKey(m) != k {
      assert MessageOk(r, e, m);
    }
  }

  lemma NotAskedHasNoRow(c: C.State, requests: seq<RequestPayload>, k: Key)
    requires OriginOk(c, requests) && k !in Asked(requests)
    ensures !HasKey(c.db.coupons, k)
  {}

  lemma NoRowMeansGaveUp(cs: seq<Coupon>, max: int, givenUp: set<Key>, r: Redis, k: Key)
    requires HashesOk(cs, max, givenUp, r) && k in r.hashes && Terminal(r.hashes[k]) && !HasKey(cs, k)
    ensures r.hashes[k].status == Some(FAILED) && r.hashes[k].attempts == Some(max)
  {
    assert StatusOk(cs, max, givenUp, k, r.hashes[k]);
  }

  /**
   * An application the check refuses, for whatever reason, never reaches server-c: no message, no
   * row, and no outcome but a give-up with all attempts used.
   */
  lemma InvalidNeverReachesServerC(s: State, steps: seq<Step>, k: Key)
    requires Init(s) && Runs(s, steps)
    requires k in After(s, steps).redis.hashes && Refused(k, After(s, steps).redis.hashes[k])
    ensures var s' := After(s, steps);
            && !HasKey(s'.c.db.coupons, k)
            && (forall m | m in s'.requests :: RequestKey(m) != k)
            && (Terminal(s'.redis.hashes[k]) ==>
                  s'.redis.hashes[k].status == Some(FAILED) && s'.redis.hashes[k].attempts == Some(s'.max))
  {
    InitHasInv(s);
    RunKeepsInv(s, steps);
    var s' := After(s, steps);
    hide HashesOk, EnlistedOk, AcceptsOk, MessagesOk, OriginOk, MarksOk, SchedOk, C.Inv, Refused, HasKey;
    assert Inv(s');
    RefusedIsNeverAsked(s'.redis, s'.enlisted, s'.requests, s'.sending, k);
    NotAskedHasNoRow(s'.c, s'.requests, k);
    if Terminal(s'.redis.hashes[k]) { NoRowMeansGaveUp(s'.c.db.coupons, s'.max, s'.givenUp, s'.redis, k); }
    forall m | m in s'.requests ensures RequestKey(m) != k { assert RequestKey(m) in Asked(s'.requests); }
  }

  /** Among them every application of a user, or for a coupon type, that is not positive, even before it is stored. */
  lemma NonPositiveKeysHaveNoRow(s: State, steps: seq<Step>, k: Key)
    requires Init(s) && Runs(s, steps) && (k.userId <= 0 || k.couponTypeId <= 0)
    ensures !HasKey(After(s, steps).c.db.coupons, k)
    ensures forall m | m in After(s, steps).requests :: RequestKey(m) != k
  {
    InitHasInv(s);
    RunKeepsInv(s, steps);
    OneMessagePerApplication(s, steps);
    NotAskedHasNoRow(After(s, steps).c, After(s, steps).requests, k);
  }

  // ---------------------------------------------------------------- the attempt cap

  /** How often a run sends k's application again. */
  ghost function Resent(s: State, steps: seq<Step>, k: Key): nat
    requires Runs(s, steps)
    decreases steps
  {
    if steps == [] then 0
    else (if Resends(s, steps[0], k) then 1 else 0) + Resent(Apply(s, steps[0]), steps[1..], k)
  }

  lemma {:induction false} EveryResendIsCounted(s: State, steps: seq<Step>, k: Key)
    requires Inv(s) && Runs(s, steps)
    ensures AttemptsOf(s, k) - Owed(s, k) + Resent(s, steps, k) <= AttemptsOf(After(s, steps), k) - Owed(After(s, steps), k)
    decreases steps
  {
    if steps != [] {
      StepIsOnward(s, steps[0], k);
      StepKeepsInv(s, steps[0]);
      hide Inv, Enabled, Apply, AttemptsOf, Owed, Resends, Onward;
      EveryResendIsCounted(Apply(s, steps[0]), steps[1..], k);
    }
  }

  /** Whatever fails, races or crashes, the scheduler sends an application at most max - 1 times more. */
  lemma ResentAtMostCapTimes(s: State, steps: seq<Step>, k: Key)
    requires Init(s) && Runs(s, steps)
    ensures Resent(s, steps, k) <= s.max - 1
  {
    InitHasInv(s);
    RunKeepsInv(s, steps);
    EveryResendIsCounted(s, steps, k);
    RunKeepsCap(s, steps);
  }

  lemma {:induction false} RunKeepsCap(s: State, steps: seq<Step>)
    requires Inv(s) && Runs(s, steps)
    ensures After(s, steps).max == s.max
    decreases steps
  {
    if steps != [] {
      StepIsOnward(s, steps[0], Key(0, 0));
      StepKeepsInv(s, steps[0]);
      hide Inv, Enabled, Apply;
      RunKeepsCap(Apply(s, steps[0]), steps[1..]);
    }
  }
}
