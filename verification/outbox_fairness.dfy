/**
 * In which order records leave the outbox: each poll reads the oldest pending records, so a record
 * waits only for older ones, and only failing older ones can keep it waiting for good.
 */
module OutboxFairness {
  import opened Basics
  import opened CouponDb
  import opened OutboxPoller
  import C = ServerC
  import F = Fairness

  /** ORDER BY created_at LIMIT limit; records created at the same instant come in any order. */
  ghost predicate OldestFirst(outbox: seq<OutboxRow>, created: nat -> int, limit: nat, answer: seq<nat>) {
    && IsBatch(outbox, limit, answer)
    && forall i, j | i in Pending(outbox) && j in answer && created(i) < created(j) :: i in answer
  }

  /** What may be read before e: the pending records not younger than it. */
  function Ahead(outbox: seq<OutboxRow>, created: nat -> int, e: nat): set<nat> {
    set i | i in Pending(outbox) && i != e && created(i) <= created(e)
  }

  /** What has to be read before e. */
  function Older(outbox: seq<OutboxRow>, created: nat -> int, e: nat): set<nat> {
    set i | i in Pending(outbox) && created(i) < created(e)
  }

  lemma MissedAnswerIsAhead(outbox: seq<OutboxRow>, created: nat -> int, limit: nat, answer: seq<nat>, e: nat)
    requires OldestFirst(outbox, created, limit, answer) && e in Pending(outbox) && e !in answer
    ensures AsSet(answer) <= Ahead(outbox, created, e) && |AsSet(answer)| == limit
  {
    DistinctSize(answer);
    if |answer| < limit {
      SubsetIsAll(AsSet(answer), Pending(outbox));
    }
  }

  lemma SubsetIsAll(part: set<nat>, all: set<nat>)
    requires part <= all && |part| == |all|
    ensures part == all
  {
    SubsetSize(part, all);
    assert all == part + (all - part);
  }

  /** A record is read when fewer than limit pending records are not younger, and only when fewer are older. */
  lemma ReadWhenFewAreOlder(outbox: seq<OutboxRow>, created: nat -> int, limit: nat, answer: seq<nat>, e: nat)
    requires OldestFirst(outbox, created, limit, answer) && e in Pending(outbox)
    ensures |Ahead(outbox, created, e)| < limit ==> e in answer
    ensures e in answer ==> |Older(outbox, created, e)| < limit
  {
    if e !in answer {
      MissedAnswerIsAhead(outbox, created, limit, answer, e);
      SubsetSize(AsSet(answer), Ahead(outbox, created, e));
    } else {
      DistinctSize(answer);
      assert Older(outbox, created, e) + {e} <= AsSet(answer);
      SubsetSize(Older(outbox, created, e) + {e}, AsSet(answer));
    }
  }

  // ---------------------------------------------------------------- over runs of polls

  /** Every answer is the oldest of what is pending then. */
  ghost predicate InOrder(r: Relay, created: nat -> int, limit: nat, ps: seq<Round>)
    requires Follows(r, limit, ps)
    decreases |ps|
  {
    ps == [] ||
    (&& OldestFirst(r.outbox, created, limit, ps[0].answer)
     && InOrder(Polled(r, ps[0]), created, limit, ps[1..]))
  }

  /** Rows not younger than e that come into the table during these polls: a transaction may commit late. */
  function Late(size: nat, created: nat -> int, ps: seq<Round>, e: nat): set<nat>
    decreases |ps|
  {
    if ps == [] then {}
    else
      var size' := size + |ps[0].appended|;
      (set j | size <= j < size' && created(j) <= created(e)) + Late(size', created, ps[1..], e)
  }

  lemma {:induction false} LateComeLater(size: nat, created: nat -> int, ps: seq<Round>, e: nat)
    ensures forall j | j in Late(size, created, ps, e) :: size <= j
    decreases |ps|
  {
    if ps != [] { LateComeLater(size + |ps[0].appended|, created, ps[1..], e); }
  }

  /** All that may be read before e: what is ahead of it, and what comes late. */
  function Queue(r: Relay, created: nat -> int, ps: seq<Round>, e: nat): set<nat> {
    Ahead(r.outbox, created, e) + Late(|r.outbox|, created, ps, e)
  }

  /** No poll reads e, and in those that do, only records of failing are not confirmed. */
  predicate MissedBy(ps: seq<Round>, e: nat, failing: set<nat>) {
    forall i | 0 <= i < |ps| ::
      && e !in ps[i].answer
      && forall j | 0 <= j < |ps[i].answer| && ps[i].answer[j] !in failing :: ps[i].send(ps[i].answer[j]).Sent?
  }

  /** The polls that came to their mark. */
  function Marked(ps: seq<Round>): nat {
    if ps == [] then 0 else (if ps[0].markWorks then 1 else 0) + Marked(ps[1..])
  }

  lemma {:induction false} SentAreConfirmed(answer: seq<nat>, send: nat -> C.SendOutcome, failing: set<nat>)
    requires forall j | 0 <= j < |answer| && answer[j] !in failing :: send(answer[j]).Sent?
    ensures forall i | i in answer && i !in failing :: i in Confirmed(answer, send)
  {
    if answer != [] { SentAreConfirmed(answer[..|answer| - 1], send, failing); }
  }

  /** What is pending after a poll: what was and is not marked now, and what is new. */
  lemma PendingAfter(r: Relay, limit: nat, p: Round)
    requires IsBatch(r.outbox, limit, p.answer) && AllFresh(p.appended) && InTable(r.outbox, p.answer)
    ensures forall i | i in Pending(Polled(r, p).outbox) && i < |r.outbox| ::
              i in Pending(r.outbox) && (p.markWorks ==> i !in Confirmed(p.answer, p.send))
    ensures forall i | i in Pending(Polled(r, p).outbox) :: i < |r.outbox| + |p.appended|
    ensures forall i | i in Pending(r.outbox) && i !in Confirmed(p.answer, p.send) :: i in Pending(Polled(r, p).outbox)
  {
    hide IsBatch, Confirmed;
  }

  lemma PollShortensTheQueue(r: Relay, created: nat -> int, limit: nat, ps: seq<Round>, e: nat, failing: set<nat>)
    requires ps != [] && InTable(r.outbox, ps[0].answer)
    requires OldestFirst(r.outbox, created, limit, ps[0].answer) && AllFresh(ps[0].appended)
    requires e in Pending(r.outbox) && MissedBy([ps[0]], e, failing)
    ensures var q, q' := Queue(r, created, ps, e), Queue(Polled(r, ps[0]), created, ps[1..], e);
            q' <= q && |q| >= limit && (ps[0].markWorks ==> |q'| + limit <= |q| + |q * failing|)
    ensures e in Pending(Polled(r, ps[0]).outbox)
  {
    var p := ps[0];
    var mid := Polled(r, p);
    var q, q' := Queue(r, created, ps, e), Queue(mid, created, ps[1..], e);
    var batch := AsSet(p.answer);
    assert p == [p][0];
    PendingAfter(r, limit, p);
    SentAreConfirmed(p.answer, p.send, failing);
    MissedAnswerIsAhead(r.outbox, created, limit, p.answer, e);
    ConfirmedIsPart(p.answer, p.send);
    LateComeLater(|mid.outbox|, created, ps[1..], e);
    assert |mid.outbox| == |r.outbox| + |p.appended|;
    SubsetSize(batch, q);
    hide Confirmed, IsBatch, Polled;
    QueueShrinks(r, created, ps, e, mid);
    if p.markWorks {
      assert forall i | i in batch - failing :: i !in q';
      Counted(q, q', batch, failing);
    }
  }

  lemma QueueShrinks(r: Relay, created: nat -> int, ps: seq<Round>, e: nat, mid: Relay)
    requires ps != [] && |mid.outbox| == |r.outbox| + |ps[0].appended|
    requires forall i | i in Pending(mid.outbox) && i < |r.outbox| :: i in Pending(r.outbox)
    ensures Queue(mid, created, ps[1..], e) <= Queue(r, created, ps, e)
  {}

  lemma Counted(a: set<nat>, a': set<nat>, batch: set<nat>, failing: set<nat>)
    requires batch <= a && a' <= a - (batch - failing)
    ensures |a'| + |batch| <= |a| + |a * failing|
  {
    SubsetSize(a', a - (batch - failing));
    SubsetSize(batch - failing, a);
    SubsetSize(batch * failing, a * failing);
    SubsetSize(batch - failing, batch);
    assert batch - (batch - failing) == batch * failing;
  }

  /** n rounds of limit against a queue in which f fail. */
  lemma OneRoundMore(rounds: nat, limit: nat, r: nat, r': nat, f: nat)
    requires r >= limit && r' + limit <= r + f
    requires rounds > 0 ==> limit + (rounds - 1) * limit <= r' + (rounds - 1) * f
    ensures limit + rounds * limit <= r + rounds * f
  {
    if rounds > 0 {
      assert rounds * limit == (rounds - 1) * limit + limit && rounds * f == (rounds - 1) * f + f;
    }
  }

  lemma {:induction false} PollsShortenTheQueue(r: Relay, created: nat -> int, limit: nat, ps: seq<Round>, e: nat,
                                                failing: set<nat>, f: nat)
    requires Follows(r, limit, ps) && InOrder(r, created, limit, ps) && e in Pending(r.outbox)
    requires MissedBy(ps, e, failing)
    requires |Queue(r, created, ps, e) * failing| <= f
    ensures Marked(ps) > 0 ==>
              limit + (Marked(ps) - 1) * limit <= |Queue(r, created, ps, e)| + (Marked(ps) - 1) * f
    decreases |ps|
  {
    hide *;
    if ps == [] {
      NoneMarked();
    } else {
      FirstPoll(r, created, limit, ps, e, failing);
      var mid := Polled(r, ps[0]);
      PollsShortenTheQueue(mid, created, limit, ps[1..], e, failing, f);
      FirstIsMarkedOrNot(ps);
      if ps[0].markWorks {
        OneRoundMore(Marked(ps[1..]), limit, |Queue(r, created, ps, e)|, |Queue(mid, created, ps[1..], e)|, f);
      }
    }
  }

  lemma NoneMarked()
    ensures Marked([]) == 0
  {}

  lemma FirstIsMarkedOrNot(ps: seq<Round>)
    requires ps != []
    ensures Marked(ps) == (if ps[0].markWorks then 1 else 0) + Marked(ps[1..])
  {}

  lemma FirstPoll(r: Relay, created: nat -> int, limit: nat, ps: seq<Round>, e: nat, failing: set<nat>)
    requires ps != []
    requires Follows(r, limit, ps) && InOrder(r, created, limit, ps) && e in Pending(r.outbox)
    requires MissedBy(ps, e, failing)
    ensures InTable(r.outbox, ps[0].answer)
    ensures var mid := Polled(r, ps[0]);
            && Follows(mid, limit, ps[1..]) && InOrder(mid, created, limit, ps[1..]) && MissedBy(ps[1..], e, failing)
            && e in Pending(mid.outbox)
    ensures var q, q' := Queue(r, created, ps, e), Queue(Polled(r, ps[0]), created, ps[1..], e);
            && |q' * failing| <= |q * failing| && |q'| <= |q| && |q| >= limit
            && (ps[0].markWorks ==> |q'| + limit <= |q| + |q * failing|)
  {
    hide Queue, Polled, MissedBy, Pending, OldestFirst, IsBatch, AllFresh;
    BatchInTable(r.outbox, limit, ps[0].answer);
    FirstAndRest(ps, e, failing);
    PollShortensTheQueue(r, created, limit, ps, e, failing);
    var q, q' := Queue(r, created, ps, e), Queue(Polled(r, ps[0]), created, ps[1..], e);
    SubsetSize(q' * failing, q * failing);
    SubsetSize(q', q);
  }

  lemma FirstAndRest(ps: seq<Round>, e: nat, failing: set<nat>)
    requires ps != [] && MissedBy(ps, e, failing)
    ensures MissedBy([ps[0]], e, failing) && MissedBy(ps[1..], e, failing)
  {
    forall i | 0 <= i < |ps[1..]|
      ensures e !in ps[1..][i].answer
      ensures forall j | 0 <= j < |ps[1..][i].answer| && ps[1..][i].answer[j] !in failing ::
                ps[1..][i].send(ps[1..][i].answer[j]).Sent?
    {
      assert ps[1..][i] == ps[i + 1];
    }
  }

  /**
   * With r records not younger than e, pending now or coming into the table late, f of which keep
   * failing (f below limit), at most (r - f) / (limit - f) polls that come to their mark pass e over.
   */
  lemma EveryRecordIsReached(r: Relay, created: nat -> int, limit: nat, ps: seq<Round>, e: nat, failing: set<nat>)
    requires Follows(r, limit, ps) && InOrder(r, created, limit, ps) && e in Pending(r.outbox)
    requires MissedBy(ps, e, failing)
    requires |Queue(r, created, ps, e) * failing| < limit
    ensures var q := Queue(r, created, ps, e); var f := |q * failing|; Marked(ps) <= (|q| - f) / (limit - f)
  {
    hide *;
    var q := Queue(r, created, ps, e);
    PollsShortenTheQueue(r, created, limit, ps, e, failing, |q * failing|);
    SubsetSize(q * failing, q);
    F.RoundsBound(Marked(ps), |q|, |q * failing|, limit);
  }

  /** The sends of these records are never confirmed. */
  predicate NeverConfirmed(ps: seq<Round>, failing: set<nat>) {
    forall i, j | 0 <= i < |ps| && 0 <= j < |ps[i].answer| && ps[i].answer[j] in failing ::
      !ps[i].send(ps[i].answer[j]).Sent?
  }

  lemma {:induction false} FailingAreNotConfirmed(answer: seq<nat>, send: nat -> C.SendOutcome, failing: set<nat>)
    requires forall j | 0 <= j < |answer| && answer[j] in failing :: !send(answer[j]).Sent?
    ensures forall i | i in failing :: i !in Confirmed(answer, send)
  {
    if answer != [] { FailingAreNotConfirmed(answer[..|answer| - 1], send, failing); }
  }

  /** limit older records that are never confirmed keep e waiting for good. */
  lemma {:induction false} FailingRecordsStarve(r: Relay, created: nat -> int, limit: nat, ps: seq<Round>, e: nat,
                                                failing: set<nat>)
    requires Follows(r, limit, ps) && InOrder(r, created, limit, ps) && NeverConfirmed(ps, failing)
    requires e in Pending(r.outbox) && |Older(r.outbox, created, e) * failing| >= limit
    ensures forall i | 0 <= i < |ps| :: e !in ps[i].answer
    decreases |ps|
  {
    if ps != [] {
      var p := ps[0];
      BatchInTable(r.outbox, limit, p.answer);
      var mid := Polled(r, p);
      SubsetSize(Older(r.outbox, created, e) * failing, Older(r.outbox, created, e));
      ReadWhenFewAreOlder(r.outbox, created, limit, p.answer, e);
      FailingAreNotConfirmed(p.answer, p.send, failing);
      ConfirmedIsPart(p.answer, p.send);
      PendingAfter(r, limit, p);
      SubsetSize(Older(r.outbox, created, e) * failing, Older(mid.outbox, created, e) * failing);
      FailingRecordsStarve(mid, created, limit, ps[1..], e, failing);
      hide *;
      assert forall i | 0 < i < |ps| :: ps[i] == ps[1..][i - 1];
    }
  }
}
