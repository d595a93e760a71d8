/**
 * The outbox poller: read a batch of pending records, send them outside any transaction, mark the
 * ones whose send was confirmed. A poll that dies in between is one whose mark did not happen.
 */
module OutboxPoller {
  import opened Basics
  import opened Payloads
  import opened CouponDb
  import opened Repositories
  import C = ServerC

  function Pending(outbox: seq<OutboxRow>): set<nat> {
    set i | 0 <= i < |outbox| && !outbox[i].published
  }

  function AsSet(ids: seq<nat>): set<nat> {
    set i | i in ids
  }

  predicate InTable(outbox: seq<OutboxRow>, ids: seq<nat>) {
    forall j | 0 <= j < |ids| :: ids[j] < |outbox|
  }

  predicate AllPending(outbox: seq<OutboxRow>, ids: seq<nat>) {
    forall j | 0 <= j < |ids| :: ids[j] in Pending(outbox)
  }

  /** What findPending may answer: limit pending records, or all when there are fewer. */
  predicate IsBatch(outbox: seq<OutboxRow>, limit: nat, answer: seq<nat>) {
    && Distinct(answer) && AllPending(outbox, answer)
    && |answer| == if |Pending(outbox)| <= limit then |Pending(outbox)| else limit
  }

  lemma BatchInTable(outbox: seq<OutboxRow>, limit: nat, answer: seq<nat>)
    requires IsBatch(outbox, limit, answer)
    ensures InTable(outbox, answer)
  {}

  /** The ids whose send was confirmed, in order. */
  function Confirmed(answer: seq<nat>, send: nat -> C.SendOutcome): seq<nat> {
    if answer == [] then []
    else
      var i := answer[|answer| - 1];
      Confirmed(answer[..|answer| - 1], send) + if send(i).Sent? then [i] else []
  }

  /** What the sends of a batch put on the topic. */
  function Appended(outbox: seq<OutboxRow>, answer: seq<nat>, send: nat -> C.SendOutcome): seq<ResultPayload>
    requires InTable(outbox, answer)
  {
    if answer == [] then []
    else
      var i := answer[|answer| - 1];
      Appended(outbox, answer[..|answer| - 1], send) + if send(i).ErrorNotSent? then [] else [outbox[i].payload]
  }

  /** Confirmed are exactly the ids of the batch whose send was. */
  lemma {:induction false} WhatIsConfirmed(answer: seq<nat>, send: nat -> C.SendOutcome, i: nat)
    ensures i in Confirmed(answer, send) <==> i in answer && send(i).Sent?
  {
    if answer != [] {
      var n := |answer| - 1;
      WhatIsConfirmed(answer[..n], send, i);
      assert answer == answer[..n] + [answer[n]];
    }
  }

  /** sent are the payloads of the ids at these positions of the batch, those whose send did not fail outright. */
  ghost predicate AppendsThese(outbox: seq<OutboxRow>, answer: seq<nat>, send: nat -> C.SendOutcome,
                               sent: seq<ResultPayload>, at: seq<nat>)
    requires InTable(outbox, answer)
  {
    && Picks(at, |answer|) && |sent| == |at|
    && (forall j | 0 <= j < |at| :: sent[j] == outbox[answer[at[j]]].payload)
    && forall n | 0 <= n < |answer| :: n in at <==> send(answer[n]).Sent? || send(answer[n]).ErrorButSent?
  }

  /**
   * The sends of a batch put on the topic, in the order of the batch, exactly the payloads whose send
   * did not fail outright.
   */
  lemma {:induction false} WhatABatchSends(outbox: seq<OutboxRow>, answer: seq<nat>, send: nat -> C.SendOutcome)
      returns (at: seq<nat>)
    requires InTable(outbox, answer)
    ensures AppendsThese(outbox, answer, send, Appended(outbox, answer, send), at)
  {
    if answer == [] {
      at := [];
    } else {
      var n := |answer| - 1;
      var earlier := WhatABatchSends(outbox, answer[..n], send);
      LastSendAppends(outbox, answer, send);
      hide Appended, AppendsThese;
      OneSendMore(outbox, answer, send, Appended(outbox, answer[..n], send), earlier);
      at := if send(answer[n]).ErrorNotSent? then earlier else earlier + [n];
    }
  }

  lemma OneSendMore(outbox: seq<OutboxRow>, answer: seq<nat>, send: nat -> C.SendOutcome, sent: seq<ResultPayload>,
                    at: seq<nat>)
    requires InTable(outbox, answer) && answer != []
    requires AppendsThese(outbox, answer[..|answer| - 1], send, sent, at)
    ensures var n := |answer| - 1;
            if send(answer[n]).ErrorNotSent? then AppendsThese(outbox, answer, send, sent + [], at)
            else AppendsThese(outbox, answer, send, sent + [outbox[answer[n]].payload], at + [n])
  {
    var n := |answer| - 1;
    OnePickMore(at, n);
    assert forall i | 0 <= i < n :: answer[..n][i] == answer[i];
  }

  lemma LastSendAppends(outbox: seq<OutboxRow>, answer: seq<nat>, send: nat -> C.SendOutcome)
    requires InTable(outbox, answer) && answer != []
    ensures var n := |answer| - 1;
            Appended(outbox, answer, send) ==
            Appended(outbox, answer[..n], send) + if send(answer[n]).ErrorNotSent? then [] else [outbox[answer[n]].payload]
  {}

  class OutboxPoller {
    const tables: Tables
    const batchSize: nat
    var running: bool
    var topic: seq<ResultPayload>

    constructor (tables: Tables, batchSize: nat)
      ensures this.tables == tables && this.batchSize == batchSize && !running && topic == []
    {
      this.tables, this.batchSize, running, topic := tables, batchSize, false, [];
    }

    /** A tick during a poll does nothing; otherwise the tick is one poll. */
    method Poll(answer: seq<nat>, send: nat -> C.SendOutcome, markWorks: bool)
      requires IsBatch(tables.outbox, batchSize, answer)
      modifies this, tables
      ensures old(running) ==> running && topic == old(topic) && tables.Contents() == old(tables.Contents())
      ensures !old(running) ==>
                && !running
                && topic == old(topic) + Appended(old(tables.outbox), answer, send)
                && tables.Contents() == old(tables.Contents()).(
                     outbox := if markWorks then MarkPublished(old(tables.outbox), AsSet(Confirmed(answer, send)))
                               else old(tables.outbox))
    {
      if running { return; }
      running := true;
      PublishPending(answer, send, markWorks);
      running := false;
    }

    /** After it a record is published exactly when it was, or its send was confirmed and the mark worked. */
    method PublishPending(answer: seq<nat>, send: nat -> C.SendOutcome, markWorks: bool)
      requires IsBatch(tables.outbox, batchSize, answer)
      modifies this`topic, tables
      ensures topic == old(topic) + Appended(old(tables.outbox), answer, send)
      ensures tables.Contents() == old(tables.Contents()).(
                outbox := if markWorks then MarkPublished(old(tables.outbox), AsSet(Confirmed(answer, send)))
                          else old(tables.outbox))
      ensures |tables.outbox| == |old(tables.outbox)|
      ensures forall i | 0 <= i < |tables.outbox| ::
                && tables.outbox[i].payload == old(tables.outbox)[i].payload
                && (tables.outbox[i].published <==>
                      old(tables.outbox)[i].published || (markWorks && i in answer && send(i).Sent?))
    {
      BatchInTable(tables.outbox, batchSize, answer);
      var published: seq<nat> := [];
      var n := 0;
      while n < |answer|
        invariant n <= |answer| && InTable(tables.outbox, answer)
        invariant published == Confirmed(answer[..n], send)
        invariant topic == old(topic) + Appended(tables.outbox, answer[..n], send)
        invariant tables.Contents() == old(tables.Contents())
      {
        var i := answer[n];
        assert answer[..n + 1][..n] == answer[..n];
        if !send(i).ErrorNotSent? { topic := topic + [tables.outbox[i].payload]; }
        if send(i).Sent? { published := published + [i]; }
        n := n + 1;
      }
      assert answer[..n] == answer;
      forall i ensures i in published <==> i in answer && send(i).Sent? {
        WhatIsConfirmed(answer, send, i);
      }
      hide Confirmed;
      if |published| > 0 {
        if markWorks { tables.MarkRowsPublished(published); }
      } else {
        assert MarkPublished(tables.outbox, AsSet(published)) == tables.outbox;
      }
    }
  }

  // ---------------------------------------------------------------- runs of polls

  /** A poll and the rows that issue transactions append after its batch was read, until the next one reads. */
  datatype Round = Round(answer: seq<nat>, send: nat -> C.SendOutcome, markWorks: bool, appended: seq<OutboxRow>)

  datatype Relay = Relay(outbox: seq<OutboxRow>, topic: seq<ResultPayload>)

  /** The mark finds the rows appended meanwhile in the table. */
  function Polled(r: Relay, p: Round): Relay
    requires InTable(r.outbox, p.answer)
  {
    var table := r.outbox + p.appended;
    Relay(if p.markWorks then MarkPublished(table, AsSet(Confirmed(p.answer, p.send))) else table,
          r.topic + Appended(r.outbox, p.answer, p.send))
  }

  /** The same round in a table that does not grow. */
  function PolledAlone(r: Relay, p: Round): Relay
    requires InTable(r.outbox, p.answer)
  {
    Relay(if p.markWorks then MarkPublished(r.outbox, AsSet(Confirmed(p.answer, p.send))) else r.outbox,
          r.topic + Appended(r.outbox, p.answer, p.send))
  }

  function Grown(r: Relay, added: seq<OutboxRow>): Relay {
    Relay(r.outbox + added, r.topic)
  }

  predicate AllFresh(rows: seq<OutboxRow>) {
    forall i | 0 <= i < |rows| :: !rows[i].published
  }

  /** Every poll gets a batch of what is then pending; what is appended is pending. */
  ghost predicate Follows(r: Relay, limit: nat, ps: seq<Round>)
    decreases |ps|
  {
    ps == [] || (IsBatch(r.outbox, limit, ps[0].answer) && AllFresh(ps[0].appended) &&
                 Follows(Polled(r, ps[0]), limit, ps[1..]))
  }

  ghost function AfterPolls(r: Relay, limit: nat, ps: seq<Round>): Relay
    requires Follows(r, limit, ps)
    decreases |ps|
  {
    if ps == [] then r else AfterPolls(Polled(r, ps[0]), limit, ps[1..])
  }

  /** All sends were confirmed, the mark worked and nothing new came in. */
  ghost predicate FailureFree(p: Round) {
    p.markWorks && p.appended == [] && forall j | 0 <= j < |p.answer| :: p.send(p.answer[j]).Sent?
  }

  /** No send is reported failed that went through. */
  predicate TellsTheTruth(answer: seq<nat>, send: nat -> C.SendOutcome) {
    forall j | 0 <= j < |answer| :: !send(answer[j]).ErrorButSent?
  }

  /** The mark worked and no send was reported failed although it went through. */
  predicate Clean(p: Round) {
    p.markWorks && TellsTheTruth(p.answer, p.send)
  }

  function Unclean(ps: seq<Round>): nat {
    if ps == [] then 0 else (if Clean(ps[0]) then 0 else 1) + Unclean(ps[1..])
  }

  lemma {:induction false} DistinctSize(ids: seq<nat>)
    requires Distinct(ids)
    ensures |AsSet(ids)| == |ids|
  {
    if ids != [] {
      var n := |ids| - 1;
      DistinctSize(ids[..n]);
      assert AsSet(ids) == AsSet(ids[..n]) + {ids[n]};
    } else {
      assert AsSet(ids) == {};
    }
  }

  lemma {:induction false} ConfirmedIsPart(answer: seq<nat>, send: nat -> C.SendOutcome)
    ensures forall j | 0 <= j < |Confirmed(answer, send)| :: Confirmed(answer, send)[j] in answer
    ensures Distinct(answer) ==> Distinct(Confirmed(answer, send))
    ensures |Confirmed(answer, send)| <= |answer|
  {
    if answer != [] { ConfirmedIsPart(answer[..|answer| - 1], send); }
  }

  lemma ConfirmedArePending(outbox: seq<OutboxRow>, answer: seq<nat>, send: nat -> C.SendOutcome)
    requires Distinct(answer) && AllPending(outbox, answer)
    ensures AsSet(Confirmed(answer, send)) <= Pending(outbox)
    ensures |AsSet(Confirmed(answer, send))| == |Confirmed(answer, send)|
  {
    hide Confirmed;
    ConfirmedIsPart(answer, send);
    DistinctSize(Confirmed(answer, send));
  }

  lemma MarkingShrinksPending(outbox: seq<OutboxRow>, ids: set<nat>)
    ensures Pending(MarkPublished(outbox, ids)) == Pending(outbox) - ids
  {}

  /** What one poll leaves pending: everything but what was confirmed and marked. */
  lemma PollShrinksPending(r: Relay, limit: nat, p: Round)
    requires IsBatch(r.outbox, limit, p.answer)
    ensures Pending(PolledAlone(r, p).outbox) ==
            Pending(r.outbox) - if p.markWorks then AsSet(Confirmed(p.answer, p.send)) else {}
    ensures |Pending(PolledAlone(r, p).outbox)| ==
            |Pending(r.outbox)| - if p.markWorks then |Confirmed(p.answer, p.send)| else 0
  {
    ConfirmedArePending(r.outbox, p.answer, p.send);
    MarkingShrinksPending(r.outbox, AsSet(Confirmed(p.answer, p.send)));
    SubsetSize(AsSet(Confirmed(p.answer, p.send)), Pending(r.outbox));
    hide Confirmed, MarkPublished, Pending, Appended, AsSet;
  }

  lemma {:induction false} AllConfirmed(answer: seq<nat>, send: nat -> C.SendOutcome)
    requires forall j | 0 <= j < |answer| :: send(answer[j]).Sent?
    ensures Confirmed(answer, send) == answer
  {
    if answer != [] { AllConfirmed(answer[..|answer| - 1], send); }
  }

  function Minus(a: nat, b: nat): nat {
    if a <= b then 0 else a - b
  }

  lemma OneFailureFreePoll(r: Relay, limit: nat, p: Round)
    requires IsBatch(r.outbox, limit, p.answer) && FailureFree(p)
    ensures |Pending(Polled(r, p).outbox)| == Minus(|Pending(r.outbox)|, limit)
  {
    hide Polled, PolledAlone, Pending, Confirmed, AllPending;
    BatchInTable(r.outbox, limit, p.answer);
    AllConfirmed(p.answer, p.send);
    PollShrinksPending(r, limit, p);
    MarkLeavesNewRows(r, limit, p);
    GrownByNothing(PolledAlone(r, p));
  }

  lemma GrownByNothing(r: Relay)
    ensures Grown(r, []) == r
  {
    assert r.outbox + [] == r.outbox;
  }

  /** The number of records these many polls can take. */
  function Capacity(polls: nat, limit: nat): nat {
    polls * limit
  }

  lemma MinusTwice(n: nat, limit: nat, more: nat)
    ensures Minus(Minus(n, limit), Capacity(more, limit)) == Minus(n, Capacity(more + 1, limit))
  {
    assert (more + 1) * limit == more * limit + limit;
  }

  /** Draining: failure-free polls with nothing new take limit records off each time. */
  lemma {:induction false} FailureFreePollsDrain(r: Relay, limit: nat, ps: seq<Round>)
    requires Follows(r, limit, ps) && forall i | 0 <= i < |ps| :: FailureFree(ps[i])
    ensures |Pending(AfterPolls(r, limit, ps).outbox)| == Minus(|Pending(r.outbox)|, Capacity(|ps|, limit))
    decreases |ps|
  {
    hide Polled, Pending, FailureFree, IsBatch, Minus, Capacity;
    if ps != [] {
      BatchInTable(r.outbox, limit, ps[0].answer);
      OneFailureFreePoll(r, limit, ps[0]);
      FailureFreePollsDrain(Polled(r, ps[0]), limit, ps[1..]);
      MinusTwice(|Pending(r.outbox)|, limit, |ps[1..]|);
    } else {
      NothingOff(|Pending(r.outbox)|, limit);
    }
  }

  lemma NothingOff(n: nat, limit: nat)
    ensures Minus(n, Capacity(0, limit)) == n
  {}

  function Ceil(n: nat, d: nat): nat
    requires d > 0
  {
    (n + d - 1) / d
  }

  lemma CeilIsLeast(n: nat, d: nat, polls: nat)
    requires d > 0
    ensures Capacity(polls, d) >= n <==> polls >= Ceil(n, d)
  {
    var q := Ceil(n, d);
    assert q * d <= n + d - 1 < q * d + d;
    MulOrder(q, polls, d);
    MulOrder(polls + 1, q, d);
    assert (polls + 1) * d == polls * d + d;
  }

  /** n pending records are drained after ceil(n / limit) failure-free polls, and not one poll sooner. */
  lemma DrainedAfterCeilPolls(r: Relay, limit: nat, ps: seq<Round>)
    requires limit > 0 && Follows(r, limit, ps) && forall i | 0 <= i < |ps| :: FailureFree(ps[i])
    ensures Pending(AfterPolls(r, limit, ps).outbox) == {} <==> |ps| >= Ceil(|Pending(r.outbox)|, limit)
  {
    FailureFreePollsDrain(r, limit, ps);
    hide Pending, AfterPolls, FailureFree, Follows, Ceil, Capacity;
    CeilIsLeast(|Pending(r.outbox)|, limit, |ps|);
  }

  lemma {:induction false} AppendedBound(outbox: seq<OutboxRow>, answer: seq<nat>, send: nat -> C.SendOutcome)
    requires InTable(outbox, answer)
    ensures |Appended(outbox, answer, send)| <= |answer|
    ensures TellsTheTruth(answer, send) ==> |Appended(outbox, answer, send)| == |Confirmed(answer, send)|
  {
    if answer != [] { AppendedBound(outbox, answer[..|answer| - 1], send); }
  }

  lemma {:induction false} ConfirmedWereSent(outbox: seq<OutboxRow>, answer: seq<nat>, send: nat -> C.SendOutcome)
    requires InTable(outbox, answer)
    ensures forall i | i in Confirmed(answer, send) :: i < |outbox| && outbox[i].payload in Appended(outbox, answer, send)
  {
    if answer != [] { ConfirmedWereSent(outbox, answer[..|answer| - 1], send); }
  }

  predicate SamePayloads(outbox: seq<OutboxRow>, outbox': seq<OutboxRow>) {
    |outbox| <= |outbox'| && forall i | 0 <= i < |outbox| :: outbox'[i].payload == outbox[i].payload
  }

  /** No longer pending, although it was at first or came later. */
  predicate Settled(outbox: seq<OutboxRow>, outbox': seq<OutboxRow>, i: nat) {
    i < |outbox'| && i !in Pending(outbox') && (i < |outbox| ==> i in Pending(outbox))
  }

  /** r' is r with rows added and some pending records marked, each of which is on the topic. */
  ghost predicate KeepsRecords(r: Relay, r': Relay) {
    && SamePayloads(r.outbox, r'.outbox) && r.topic <= r'.topic
    && (forall i | i < |r.outbox| && i in Pending(r'.outbox) :: i in Pending(r.outbox))
    && forall i: nat | Settled(r.outbox, r'.outbox, i) :: r'.outbox[i].payload in r'.topic
  }

  lemma MarkingKeepsPayloads(outbox: seq<OutboxRow>, ids: set<nat>)
    ensures SamePayloads(outbox, MarkPublished(outbox, ids)) && |MarkPublished(outbox, ids)| == |outbox|
  {}

  lemma MarkedWereSent(r: Relay, limit: nat, p: Round, i: nat)
    requires IsBatch(r.outbox, limit, p.answer) && InTable(r.outbox, p.answer)
    requires i in Pending(r.outbox) && i !in Pending(PolledAlone(r, p).outbox)
    ensures i < |r.outbox| && r.outbox[i].payload in PolledAlone(r, p).topic
  {
    hide Confirmed, Appended, IsBatch, AllPending, MarkPublished;
    PollShrinksPending(r, limit, p);
    ConfirmedWereSent(r.outbox, p.answer, p.send);
    assert i in AsSet(Confirmed(p.answer, p.send));
    assert i in Confirmed(p.answer, p.send);
  }

  lemma AloneKeepsPayloads(r: Relay, p: Round)
    requires InTable(r.outbox, p.answer)
    ensures SamePayloads(r.outbox, PolledAlone(r, p).outbox) && |PolledAlone(r, p).outbox| == |r.outbox|
    ensures r.topic <= PolledAlone(r, p).topic
  {
    MarkingKeepsPayloads(r.outbox, AsSet(Confirmed(p.answer, p.send)));
    hide MarkPublished, Confirmed, Appended;
  }

  lemma OnePollLosesNothing(r: Relay, limit: nat, p: Round)
    requires IsBatch(r.outbox, limit, p.answer)
    ensures InTable(r.outbox, p.answer) && KeepsRecords(r, PolledAlone(r, p))
  {
    hide IsBatch, AllPending, InTable, PolledAlone, Pending;
    BatchInTable(r.outbox, limit, p.answer);
    AloneKeepsPayloads(r, p);
    PollShrinksPending(r, limit, p);
    var r' := PolledAlone(r, p);
    forall i: nat | Settled(r.outbox, r'.outbox, i) ensures r'.outbox[i].payload in r'.topic {
      MarkedWereSent(r, limit, p, i);
    }
  }

  /** Beyond one message per record marked, a poll adds at most limit, and none when it is clean. */
  lemma OnePollRepeatsLittle(r: Relay, limit: nat, p: Round)
    requires IsBatch(r.outbox, limit, p.answer)
    ensures InTable(r.outbox, p.answer)
    ensures |PolledAlone(r, p).topic| - |r.topic| <=
            |Pending(r.outbox)| - |Pending(PolledAlone(r, p).outbox)| + if Clean(p) then 0 else limit
  {
    BatchInTable(r.outbox, limit, p.answer);
    PollShrinksPending(r, limit, p);
    AppendedBound(r.outbox, p.answer, p.send);
    ConfirmedIsPart(p.answer, p.send);
    hide Confirmed, Appended, Pending, MarkPublished, TellsTheTruth;
  }

  /** Rows that come in while a poll is under way are not touched by its mark. */
  lemma MarkLeavesNewRows(r: Relay, limit: nat, p: Round)
    requires IsBatch(r.outbox, limit, p.answer) && InTable(r.outbox, p.answer)
    ensures Polled(r, p) == Grown(PolledAlone(r, p), p.appended)
  {
    ConfirmedArePending(r.outbox, p.answer, p.send);
    MarkedBelow(r.outbox, p.appended, AsSet(Confirmed(p.answer, p.send)));
    hide Confirmed, MarkPublished, Appended;
  }

  lemma MarkedBelow(outbox: seq<OutboxRow>, added: seq<OutboxRow>, ids: set<nat>)
    requires ids <= Pending(outbox)
    ensures MarkPublished(outbox + added, ids) == MarkPublished(outbox, ids) + added
  {}

  lemma {:induction false} NewRowsArePending(outbox: seq<OutboxRow>, added: seq<OutboxRow>)
    requires AllFresh(added)
    ensures |Pending(outbox + added)| == |Pending(outbox)| + |added|
    decreases |added|
  {
    if added == [] {
      assert outbox + added == outbox;
    } else {
      var n := |added| - 1;
      NewRowsArePending(outbox, added[..n]);
      assert Pending(outbox + added) == Pending(outbox + added[..n]) + {|outbox| + n};
    }
  }

  lemma GrowingKeeps(r: Relay, added: seq<OutboxRow>)
    requires AllFresh(added)
    ensures KeepsRecords(r, Grown(r, added))
  {}

  lemma KeepingOnKeeps(r: Relay, mid: Relay, r': Relay)
    requires KeepsRecords(r, mid) && KeepsRecords(mid, r')
    ensures KeepsRecords(r, r')
  {
    hide Pending;
    forall i: nat | Settled(r.outbox, r'.outbox, i) ensures r'.outbox[i].payload in r'.topic {
      if i < |mid.outbox| && i !in Pending(mid.outbox) {
        assert Settled(r.outbox, mid.outbox, i);
      } else {
        assert Settled(mid.outbox, r'.outbox, i);
      }
    }
  }

  lemma OneMore(n: nat, limit: nat)
    ensures Capacity(0, limit) == 0 && Capacity(1 + n, limit) == limit + Capacity(n, limit)
  {}

  lemma KeepingNothingKeeps(r: Relay)
    ensures KeepsRecords(r, r)
  {}

  /** One poll with what was appended during it and until the next. */
  lemma OneRound(r: Relay, limit: nat, p: Round)
    requires IsBatch(r.outbox, limit, p.answer) && AllFresh(p.appended)
    ensures InTable(r.outbox, p.answer) && KeepsRecords(r, Polled(r, p))
    ensures |Polled(r, p).outbox| == |r.outbox| + |p.appended|
    ensures |Polled(r, p).topic| - |r.topic| <=
            |Pending(r.outbox)| + |p.appended| - |Pending(Polled(r, p).outbox)| + if Clean(p) then 0 else limit
  {
    hide IsBatch, PolledAlone, Polled, KeepsRecords, Pending, Clean, InTable, AllFresh;
    BatchInTable(r.outbox, limit, p.answer);
    OnePollLosesNothing(r, limit, p);
    OnePollRepeatsLittle(r, limit, p);
    MarkLeavesNewRows(r, limit, p);
    AloneKeepsPayloads(r, p);
    var alone := PolledAlone(r, p);
    GrowingKeeps(alone, p.appended);
    KeepingOnKeeps(r, alone, Polled(r, p));
    NewRowsArePending(alone.outbox, p.appended);
  }

  /**
   * Whatever fails and whatever is appended meanwhile: no record is lost, what is not pending any
   * more is on the topic, and beyond one message per record marked there are at most limit for each
   * poll that died before its mark or was told a send failed that had not.
   */
  lemma {:induction false} PollsLoseNothingAndRepeatLittle(r: Relay, limit: nat, ps: seq<Round>)
    requires Follows(r, limit, ps)
    ensures var r' := AfterPolls(r, limit, ps); var appended := |r'.outbox| - |r.outbox|;
            && KeepsRecords(r, r') && appended >= 0
            && |r'.topic| - |r.topic| <=
                 |Pending(r.outbox)| + appended - |Pending(r'.outbox)| + Capacity(Unclean(ps), limit)
    decreases |ps|
  {
    hide Polled, Pending, Clean, IsBatch, KeepsRecords, Capacity, AllFresh;
    if ps == [] {
      KeepingNothingKeeps(r);
      OneMore(0, limit);
    } else {
      OneRound(r, limit, ps[0]);
      var mid := Polled(r, ps[0]);
      PollsLoseNothingAndRepeatLittle(mid, limit, ps[1..]);
      KeepingOnKeeps(r, mid, AfterPolls(mid, limit, ps[1..]));
      OneMore(Unclean(ps[1..]), limit);
    }
  }
}
