/**
 * Nobody is stuck: from every reachable state everything comes to rest in a run in which nothing
 * fails, every accepted application finished for good; and which of them end with the outcome of
 * their row, and which can never, is told by the state alone.
 */
module Progress {
  import opened Basics
  import opened Payloads
  import opened CouponDb
  import opened Redis
  import opened System
  import opened SystemProofs
  import opened ResultOffsets
  import opened FinishedEntries
  import opened Calm
  import opened Outcomes
  import opened FinalOutcomes
  import opened SchedulerProgress
  import C = ServerC
  import O = OutboxFairness
  import P = OutboxPoller

  /** What holds from here on: the scheduler is done, and only the others move. */
  ghost predicate Ready(s: State) {
    Inv(s) && OffsetsOk(s) && AtRest(s)
  }

  lemma ReadyHas(s: State)
    requires Ready(s)
    ensures Inv(s) && OffsetsOk(s) && AtRest(s)
  {}

  // ---------------------------------------------------------------- markResults under way

  /** One record is resolved, and no other touched. */
  predicate ResolvesOnly(s: State, s': State, j: nat) {
    && s'.c == s.c && s'.enlisted == s.enlisted
    && s'.marks.Keys == s.marks.Keys - {j} && s'.resolved == s.resolved + {j}
  }

  lemma NextMarkStep(w: World, s: State, at: int, j: nat)
    requires j in s.marks && AtRest(s)
    ensures var t := Tick(at, Consuming(j, MarkNext)); var s' := MarkingNext(s, j, MarkNext);
            && CanMark(s, j, MarkNext) && Enabled(s, t.step) && CalmTick(w, s, t) && Apply(s, t.step) == s'
            && AtRest(s')
            && (s.marks[j].pc.Removing? ==> ResolvesOnly(s, s', j))
            && (!s.marks[j].pc.Removing? ==>
                  && j in s'.marks && MarkLeft(s'.marks[j].pc) < MarkLeft(s.marks[j].pc)
                  && forall s'' :: ResolvesOnly(s', s'', j) ==> ResolvesOnly(s, s'', j))
  {
    hide HashOf;
    MarkAddsNobody(s.redis, s.marks[j]);
    hide MarkCommand;
  }

  lemma MarkAddsNobody(r: Redis, m: Mark)
    requires r.zset == map[]
    ensures MarkCommand(r, m).zset == map[]
  {}

  lemma TickKeepsReady(s: State, step: Step)
    requires Ready(s) && Enabled(s, step) && AtRest(Apply(s, step))
    ensures Ready(Apply(s, step))
  {
    hide Inv, OffsetsOk, Enabled, Apply;
    TickKeepsInv(s, step);
  }

  lemma {:induction false} MarkFinishes(w: World, s: State, at: int, j: nat) returns (ticks: seq<Tick>, s': State)
    requires Ready(s) && j in s.marks
    ensures Goes(w, s, at, ticks, s', at) && Ready(s') && ResolvesOnly(s, s', j)
    decreases MarkLeft(s.marks[j].pc)
  {
    hide *;
    ReadyHas(s);
    NextMarkStep(w, s, at, j);
    var t := Tick(at, Consuming(j, MarkNext));
    var mid := MarkingNext(s, j, MarkNext);
    TickKeepsReady(s, t.step);
    var rest;
    if s.marks[j].pc.Removing? {
      GoesNowhere(w, mid, at);
      rest, s' := [], mid;
    } else {
      rest, s' := MarkFinishes(w, mid, at, j);
    }
    GoesByOne(w, s, at, t, rest, s', at);
    ticks := [t] + rest;
  }

  /** Every markResult under way is finished. */
  lemma {:induction false} MarksFinish(w: World, s: State, at: int) returns (ticks: seq<Tick>, s': State)
    requires Ready(s)
    ensures Goes(w, s, at, ticks, s', at) && Ready(s') && s'.marks == map[] && s'.c == s.c && s'.enlisted == s.enlisted
    decreases |s.marks.Keys|
  {
    hide *;
    if s.marks == map[] {
      GoesNowhere(w, s, at);
      ticks, s' := [], s;
    } else {
      var j :| j in s.marks;
      var first, mid := MarkFinishes(w, s, at, j);
      OneMarkFewer(s, mid, j);
      var rest;
      rest, s' := MarksFinish(w, mid, at);
      GoesOn(w, s, at, first, mid, at, rest, s', at);
      ticks := first + rest;
    }
  }

  lemma OneMarkFewer(s: State, s': State, j: nat)
    requires ResolvesOnly(s, s', j) && j in s.marks
    ensures |s'.marks.Keys| < |s.marks.Keys| && s'.c == s.c && s'.enlisted == s.enlisted
  {}

  // ---------------------------------------------------------------- the outbox

  /** Only topic, poller and published marks differ, and none of the marks is taken back. */
  predicate OnlyRelayed(s: State, s': State) {
    && s' == s.(c := s'.c) && s'.c.db.coupons == s.c.db.coupons && |s'.c.db.outbox| == |s.c.db.outbox|
    && forall n | 0 <= n < |s.c.db.outbox| :: s.c.db.outbox[n].published ==> s'.c.db.outbox[n].published
  }

  lemma RelayedOn(s: State, mid: State, s': State)
    requires OnlyRelayed(s, mid) && OnlyRelayed(mid, s')
    ensures OnlyRelayed(s, s')
  {}

  /** What the poll under way has read is published. */
  predicate BatchIsPublished(s: State, s': State) {
    s.c.poller.Polling? ==>
      forall n | 0 <= n < |s'.c.db.outbox| && (n in s.c.poller.todo || n in s.c.poller.sent) :: s'.c.db.outbox[n].published
  }

  function RelayNext(s: State): Step
    requires s.c.poller.Polling?
  {
    Server(C.Relaying(if s.c.poller.todo == [] then C.PollMark else C.PollSend(C.Sent)))
  }

  function PollLeft(s: State): nat {
    if s.c.poller.Polling? then 1 + |s.c.poller.todo| else 0
  }

  lemma TodoIsInTable(s: State)
    requires Inv(s) && s.c.poller.Polling?
    ensures s.c.poller.todo != [] ==> s.c.poller.todo[0] < |s.c.db.outbox|
  {
    assert C.ChainOk(s.c.db.outbox, s.c.topic, s.c.poller);
  }

  lemma NextRelayStep(w: World, s: State, at: int)
    requires s.c.poller.Polling? && (s.c.poller.todo != [] ==> s.c.poller.todo[0] < |s.c.db.outbox|)
    ensures var t := Tick(at, RelayNext(s)); var s' := Apply(s, RelayNext(s));
            && Enabled(s, t.step) && CalmTick(w, s, t) && OnlyRelayed(s, s') && PollLeft(s') < PollLeft(s)
            && (s'.c.poller.Polling? ==> forall s'' :: BatchIsPublished(s', s'') ==> BatchIsPublished(s, s''))
            && (s'.c.poller.Idle? ==> BatchIsPublished(s, s'))
  {
    hide O.OldestFirst, ValidRequest;
    if s.c.poller.todo != [] {
      var todo := s.c.poller.todo;
      assert forall n | n in todo :: n == todo[0] || n in todo[1..];
    }
  }

  lemma RelayedRests(s: State, s': State)
    requires OnlyRelayed(s, s') && AtRest(s)
    ensures AtRest(s')
  {}

  lemma NothingRelayed(s: State)
    ensures OnlyRelayed(s, s) && (s.c.poller.Idle? ==> BatchIsPublished(s, s))
  {}

  lemma PublishedStays(s: State, mid: State, s': State)
    requires BatchIsPublished(s, mid) && OnlyRelayed(mid, s')
    ensures BatchIsPublished(s, s')
  {}

  /** A poll under way is finished: what it has read is sent and marked. */
  lemma {:induction false} PollEnds(w: World, s: State, at: int) returns (ticks: seq<Tick>, s': State)
    requires Ready(s)
    ensures Goes(w, s, at, ticks, s', at) && Ready(s') && OnlyRelayed(s, s') && s'.c.poller.Idle? && BatchIsPublished(s, s')
    decreases PollLeft(s)
  {
    hide *;
    ReadyHas(s);
    if s.c.poller.Idle? {
      GoesNowhere(w, s, at);
      NothingRelayed(s);
      ticks, s' := [], s;
    } else {
      TodoIsInTable(s);
      NextRelayStep(w, s, at);
      var t := Tick(at, RelayNext(s));
      var mid := Apply(s, RelayNext(s));
      RelayedRests(s, mid);
      TickKeepsReady(s, t.step);
      var rest;
      rest, s' := PollEnds(w, mid, at);
      RelayedOn(s, mid, s');
      if mid.c.poller.Idle? { PublishedStays(s, mid, s'); }
      GoesByOne(w, s, at, t, rest, s', at);
      ticks := [t] + rest;
    }
  }

  /** The order of the poller's query, with some order among rows of one instant. */
  predicate Older(created: nat -> int, a: nat, b: nat) {
    created(a) < created(b) || (created(a) == created(b) && a < b)
  }

  lemma OldestBatch(w: World, outbox: seq<OutboxRow>) returns (ids: seq<nat>)
    requires w.Ok()
    ensures O.OldestFirst(outbox, w.created, w.limit, ids)
    ensures P.Pending(outbox) != {} ==> ids != []
  {
    var before := (a, b) => Older(w.created, a, b);
    var pending := P.Pending(outbox);
    hide P.Pending;
    assert Orders(pending, before);
    ids := FirstOf(pending, before, w.limit);
    assert forall a, b | Older(w.created, a, b) :: before(a, b);
  }

  lemma PollStarts(w: World, s: State, at: int, ids: seq<nat>)
    requires s.c.poller.Idle? && O.OldestFirst(s.c.db.outbox, w.created, w.limit, ids)
    ensures var t := Tick(at, Server(C.Relaying(C.PollStart(ids)))); var s' := Apply(s, t.step);
            && Enabled(s, t.step) && CalmTick(w, s, t)
            && OnlyRelayed(s, s') && s'.c.poller == C.Polling(ids, {}) && s'.c.db.outbox == s.c.db.outbox
  {
    assert P.AllPending(s.c.db.outbox, ids);
  }

  lemma PollTakesSome(s: State, mid: State, s': State, ids: seq<nat>)
    requires mid.c.poller == C.Polling(ids, {}) && mid.c.db.outbox == s.c.db.outbox
    requires P.AllPending(s.c.db.outbox, ids) && ids != []
    requires OnlyRelayed(mid, s') && BatchIsPublished(mid, s')
    ensures |P.Pending(s'.c.db.outbox)| < |P.Pending(s.c.db.outbox)|
  {
    var before, after := P.Pending(s.c.db.outbox), P.Pending(s'.c.db.outbox);
    assert ids[0] in before && ids[0] in ids;
    assert after <= before - {ids[0]};
    SubsetSize(after, before - {ids[0]});
  }

  lemma AllPublished(s: State)
    ensures P.Pending(s.c.db.outbox) == {} ==> forall n | 0 <= n < |s.c.db.outbox| :: s.c.db.outbox[n].published
  {
    if n :| 0 <= n < |s.c.db.outbox| && !s.c.db.outbox[n].published {
      assert n in P.Pending(s.c.db.outbox);
    }
  }

  lemma BatchIsPending(w: World, outbox: seq<OutboxRow>, ids: seq<nat>)
    requires O.OldestFirst(outbox, w.created, w.limit, ids)
    ensures P.AllPending(outbox, ids)
  {}

  /** Poll after poll, each over the oldest pending records, the outbox drains. */
  lemma {:induction false} PollsDrain(w: World, s: State, at: int) returns (ticks: seq<Tick>, s': State)
    requires w.Ok() && Ready(s) && s.c.poller.Idle?
    ensures Goes(w, s, at, ticks, s', at) && Ready(s') && OnlyRelayed(s, s') && s'.c.poller.Idle?
    ensures P.Pending(s'.c.db.outbox) == {}
    decreases |P.Pending(s.c.db.outbox)|
  {
    hide *;
    if P.Pending(s.c.db.outbox) == {} {
      GoesNowhere(w, s, at);
      NothingRelayed(s);
      ticks, s' := [], s;
    } else {
      ReadyHas(s);
      var ids := OldestBatch(w, s.c.db.outbox);
      PollStarts(w, s, at, ids);
      BatchIsPending(w, s.c.db.outbox, ids);
      var t := Tick(at, Server(C.Relaying(C.PollStart(ids))));
      var begun := Apply(s, t.step);
      RelayedRests(s, begun);
      TickKeepsReady(s, t.step);
      var one, mid := PollEnds(w, begun, at);
      PollTakesSome(s, begun, mid, ids);
      var rest;
      rest, s' := PollsDrain(w, mid, at);
      GoesOn(w, begun, at, one, mid, at, rest, s', at);
      GoesByOne(w, s, at, t, one + rest, s', at);
      ticks := [t] + (one + rest);
      RelayedOn(s, begun, mid);
      RelayedOn(s, mid, s');
    }
  }

  // ---------------------------------------------------------------- the records

  lemma RecordsAreValid(s: State, j: nat)
    requires Inv(s) && j < |s.c.topic|
    ensures ValidResult(s.c.topic[j])
  {
    var row := ResultCarriesRow(s.c, s.c.topic[j]);
  }

  predicate ResolvedBelow(s: State, n: nat) {
    forall j | 0 <= j < n :: j in s.resolved
  }

  lemma NextRecord(w: World, s: State, at: int, n: nat)
    requires n < |s.c.topic| && ValidResult(s.c.topic[n]) && s.marks == map[] && n !in s.resolved && ResolvedBelow(s, n)
    requires AtRest(s)
    ensures var t := Tick(at, Consuming(n, Deliver)); var s' := Apply(s, t.step);
            && Enabled(s, t.step) && CalmTick(w, s, t) && AtRest(s')
            && s'.c == s.c && s'.enlisted == s.enlisted && s'.marks.Keys == {n} && s'.resolved == s.resolved
  {
    hide ValidResult, MarkOf;
  }

  lemma OneRecordMore(s: State, mid: State, s': State, n: nat)
    requires ResolvedBelow(s, n) && mid.resolved == s.resolved && mid.marks.Keys == {n} && ResolvesOnly(mid, s', n)
    requires mid.c == s.c && mid.enlisted == s.enlisted
    ensures s'.marks == map[] && ResolvedBelow(s', n + 1) && s'.c == s.c && s'.enlisted == s.enlisted
  {}

  lemma BelowAndThis(s: State, n: nat)
    requires ResolvedBelow(s, n) && n in s.resolved
    ensures ResolvedBelow(s, n + 1)
  {}

  /** The records are taken one after the other, each once. */
  lemma {:induction false} RecordsAreTaken(w: World, s: State, at: int, n: nat) returns (ticks: seq<Tick>, s': State)
    requires Ready(s) && s.marks == map[] && n <= |s.c.topic| && ResolvedBelow(s, n)
    ensures Goes(w, s, at, ticks, s', at) && Ready(s') && s'.marks == map[] && s'.c == s.c && s'.enlisted == s.enlisted
    ensures ResolvedBelow(s', |s.c.topic|)
    decreases |s.c.topic| - n
  {
    hide *;
    if n == |s.c.topic| {
      GoesNowhere(w, s, at);
      ticks, s' := [], s;
    } else if n in s.resolved {
      BelowAndThis(s, n);
      ticks, s' := RecordsAreTaken(w, s, at, n + 1);
    } else {
      ReadyHas(s);
      RecordsAreValid(s, n);
      NextRecord(w, s, at, n);
      var t := Tick(at, Consuming(n, Deliver));
      var begun := Apply(s, t.step);
      TickKeepsReady(s, t.step);
      assert n in begun.marks.Keys;
      var one, mid := MarkFinishes(w, begun, at, n);
      OneRecordMore(s, begun, mid, n);
      var rest;
      rest, s' := RecordsAreTaken(w, mid, at, n + 1);
      GoesOn(w, begun, at, one, mid, at, rest, s', at);
      GoesByOne(w, s, at, t, one + rest, s', at);
      ticks := [t] + (one + rest);
    }
  }

  // ---------------------------------------------------------------- everything

  lemma AtRestKeepsHope(s: State, c: Coupon)
    requires AtRest(s)
    ensures KeepsHope(s, c)
  {}

  /** While the scheduler comes first, what can come right stays so. */
  lemma {:induction false} GoesKeepsTold(w: World, s: State, from: int, ticks: seq<Tick>, s': State, to: int, i: nat)
    requires Inv(s) && OffsetsOk(s) && i < |s.c.db.coupons| && Goes(w, s, from, ticks, s', to)
    ensures i < |s'.c.db.coupons| && (CanBeTold(s', i) <==> CanBeTold(s, i))
    decreases ticks
  {
    hide Inv, OffsetsOk, Enabled, Apply, CalmTick, CanBeTold, KeepsHope, AtRest;
    if ticks != [] {
      if AtRest(s) { AtRestKeepsHope(s, s.c.db.coupons[i]); }
      StepKeepsTold(w, s, ticks[0], i);
      TickKeepsInv(s, ticks[0].step);
      GoesKeepsTold(w, Apply(s, ticks[0].step), ticks[0].at, ticks[1..], s', to, i);
    }
  }

  lemma NothingIsLeft(s: State)
    requires Ready(s) && s.marks == map[] && s.c.poller.Idle? && P.Pending(s.c.db.outbox) == {}
    requires ResolvedBelow(s, |s.c.topic|)
    ensures Quiet(s)
  {
    AllPublished(s);
  }

  /** From every state the rest of the work can be done by a run in which nothing fails. */
  lemma WorkIsDone(w: World, s: State, from: int) returns (ticks: seq<Tick>, s': State, to: int)
    requires w.Ok() && Inv(s) && OffsetsOk(s) && InstantsOk(s) && from >= 0
    ensures Goes(w, s, from, ticks, s', to) && Inv(s') && OffsetsOk(s') && Quiet(s') && s.enlisted <= s'.enlisted
  {
    hide *;
    var turns, rested, at := SchedulerFinishes(w, s, from);
    FurtherEnlists(s, rested);
    NowReady(rested);
    var marks, marked := MarksFinish(w, rested, at);
    var poll, idle := PollEnds(w, marked, at);
    var polls, drained := PollsDrain(w, idle, at);
    RelayedOn(marked, idle, drained);
    RelayLeaves(marked, drained);
    NoneBelow(drained);
    var records, done := RecordsAreTaken(w, drained, at, 0);
    ReadyHas(done);
    NothingIsLeft(done);
    GoesOn(w, drained, at, records, done, at, [], done, at) by { GoesNowhere(w, done, at); }
    GoesOn(w, idle, at, polls, drained, at, records, done, at);
    GoesOn(w, marked, at, poll, idle, at, polls + records, done, at);
    GoesOn(w, rested, at, marks, marked, at, poll + (polls + records), done, at);
    GoesOn(w, s, from, turns, rested, at, marks + (poll + (polls + records)), done, at);
    ticks, s', to := turns + (marks + (poll + (polls + records))), done, at;
  }

  lemma FurtherEnlists(s: State, s': State)
    requires Further(s, s')
    ensures s.enlisted <= s'.enlisted
  {}

  lemma NowReady(s: State)
    requires Inv(s) && OffsetsOk(s) && AtRest(s)
    ensures Ready(s)
  {}

  lemma RelayLeaves(s: State, s': State)
    requires OnlyRelayed(s, s')
    ensures s'.marks == s.marks && s'.enlisted == s.enlisted
  {}

  lemma NoneBelow(s: State)
    ensures ResolvedBelow(s, 0)
  {}

  lemma QuietIsFinished(s: State, k: Key)
    requires Inv(s) && Quiet(s) && k in s.enlisted
    ensures Left(s, k) && !AboutToRescore(s, k)
  {
    assert Tracked(s.redis, k);
  }

  /**
   * From every reachable state a run in which nothing fails and time passes as needed brings
   * everything to rest. Every accepted application then has an outcome and is off the set for good;
   * and Redis shows the outcome of a row exactly when that could still be told to begin with.
   */
  lemma EverythingCanFinish(w: World, s: State, from: int) returns (ticks: seq<Tick>, s': State, to: int)
    requires w.Ok() && Inv(s) && OffsetsOk(s) && InstantsOk(s) && from >= 0
    ensures Leads(w, s, from, ticks, s', to) && Quiet(s')
    ensures forall k | k in s.enlisted :: Left(s', k)
    ensures forall k, later | k in s.enlisted && Runs(s', later) :: k !in After(s', later).redis.zset
    ensures forall i | 0 <= i < |s.c.db.coupons| :: ShowsRow(s', i) <==> CanBeTold(s, i)
  {
    hide Inv, OffsetsOk, Goes, Leads, Quiet, CanBeTold, InstantsOk, World.Ok, Left, AboutToRescore;
    ticks, s', to := WorkIsDone(w, s, from);
    GoesIsCalm(w, s, from, ticks, s', to);
    forall k | k in s.enlisted ensures Left(s', k) {
      QuietIsFinished(s', k);
    }
    forall k, later | k in s.enlisted && Runs(s', later) ensures k !in After(s', later).redis.zset {
      QuietIsFinished(s', k);
      StaysOut(s', later, k);
      LeftIsOff(After(s', later), k);
    }
    forall i | 0 <= i < |s.c.db.coupons| ensures ShowsRow(s', i) <==> CanBeTold(s, i) {
      GoesKeepsTold(w, s, from, ticks, s', to, i);
      QuietIsSettled(s', i);
    }
  }

  /** What these results ask of a state holds of every reachable one. */
  lemma ReachableStatesAreFine(s: State, steps: seq<Step>)
    requires Init(s) && Runs(s, steps) && forall n | 0 <= n < |steps| :: ClockOk(steps[n])
    ensures Inv(After(s, steps)) && OffsetsOk(After(s, steps)) && InstantsOk(After(s, steps))
  {
    InitHasInv(s);
    RunKeepsInv(s, steps);
    RunKeepsOffsets(s, steps);
    RunKeepsInstants(s, steps);
  }

  lemma LeftIsOff(s: State, k: Key)
    requires Left(s, k)
    ensures k !in s.redis.zset
  {}

  /**
   * Which outcomes these runs can end with: wherever a row's outcome can no longer be told, none of
   * them ends with it, and where no give-up or removal is in the way, all of them do.
   */
  lemma WhereCalmRunsEnd(w: World, s: State, from: int, ticks: seq<Tick>, s': State, to: int, i: nat)
    requires Inv(s) && OffsetsOk(s) && i < |s.c.db.coupons| && Leads(w, s, from, ticks, s', to) && Quiet(s')
    ensures ShowsRow(s', i) ==> CanBeTold(s, i)
    ensures Safe(s, s.c.db.coupons[i]) ==> (ShowsRow(s', i) <==> CanBeTold(s, i))
  {
    hide Inv, OffsetsOk, Leads, Quiet, CanBeTold, Safe;
    LostStaysLost(w, s, from, ticks, s', to, i);
    QuietIsSettled(s', i);
    if Safe(s, s.c.db.coupons[i]) { SafeStaysTold(w, s, from, ticks, s', to, i); }
  }

  // ---------------------------------------------------------------- a wrong outcome that stays

  /** After this step, a crash, the row can be told. */
  ghost predicate Reopens(s: State, step: Step, i: nat)
    requires i < |s.c.db.coupons|
  {
    && Enabled(s, step) && Apply(s, step).c.db == s.c.db && CanBeTold(Apply(s, step), i)
    && (InstantsOk(s) ==> InstantsOk(Apply(s, step)))
  }

  lemma CrashReopens(s: State, i: nat)
    requires i < |s.c.db.coupons| && CouponKey(s.c.db.coupons[i]) in s.redis.zset
    ensures Reopens(s, Recovering(SchedCrashes), i)
  {}

  lemma PollCrashReopens(s: State, i: nat)
    requires i < |s.c.db.coupons| && i < |s.c.db.outbox| && !s.c.db.outbox[i].published && s.c.poller.Polling?
    ensures Reopens(s, Server(C.Relaying(C.PollCrash)), i)
  {
    hide VisitDue, Standing, RecordDue;
  }

  lemma TakingBackReopens(s: State, i: nat, j: nat)
    requires i < |s.c.db.coupons| && j < |s.c.topic| && ResultKey(s.c.topic[j]) == CouponKey(s.c.db.coupons[i])
    requires j !in s.committed
    ensures Reopens(s, Consuming(j, TakenBack), i)
  {
    assert DueAt(s.c.topic, C.Without(s.marks, j), s.resolved - {j}, CouponKey(s.c.db.coupons[i]), j);
    hide VisitDue, Standing, SendDue;
  }

  lemma StillOpen(s: State, i: nat)
    requires i < |s.c.db.coupons| && !ShowsRow(s, i) && !Abandoned(s, i)
    requires i < |s.c.db.outbox|
    ensures var k := CouponKey(s.c.db.coupons[i]);
            || CanBeTold(s, i) || k in s.redis.zset
            || (!s.c.db.outbox[i].published && s.c.poller.Polling?)
            || exists j: nat :: j < |s.c.topic| && ResultKey(s.c.topic[j]) == k && j !in s.committed
  {
    hide InTurn, HashOf, RecordDue, Standing;
  }

  /** A step, if one is needed, after which the row can be told. */
  lemma CanBeReopened(s: State, i: nat) returns (steps: seq<Step>, s': State)
    requires Inv(s) && OffsetsOk(s) && InstantsOk(s) && i < |s.c.db.coupons| && !ShowsRow(s, i) && !Abandoned(s, i)
    ensures (steps == [] && s' == s) || (|steps| == 1 && Enabled(s, steps[0]) && s' == Apply(s, steps[0]))
    ensures Inv(s') && OffsetsOk(s') && InstantsOk(s') && s'.c.db == s.c.db && CanBeTold(s', i)
  {
    hide Inv, OffsetsOk, InstantsOk, Enabled, Apply, CanBeTold, Abandoned, ShowsRow;
    RowInTable(s, i);
    StillOpen(s, i);
    var k := CouponKey(s.c.db.coupons[i]);
    steps, s' := [], s;
    if CanBeTold(s, i) {
      return;
    } else if k in s.redis.zset {
      CrashReopens(s, i);
      steps := [Recovering(SchedCrashes)];
    } else if !s.c.db.outbox[i].published && s.c.poller.Polling? {
      PollCrashReopens(s, i);
      steps := [Server(C.Relaying(C.PollCrash))];
    } else {
      var j: nat :| j < |s.c.topic| && ResultKey(s.c.topic[j]) == k && j !in s.committed;
      TakingBackReopens(s, i, j);
      steps := [Consuming(j, TakenBack)];
    }
    s' := Apply(s, steps[0]);
    TickKeepsInv(s, steps[0]);
  }

  lemma RowInTable(s: State, i: nat)
    requires Inv(s) && i < |s.c.db.coupons|
    ensures i < |s.c.db.outbox|
  {
    RowFacts(s.c, i);
  }

  lemma RunsOn(s: State, steps: seq<Step>, mid: State, more: seq<Step>)
    requires (steps == [] && mid == s) || (|steps| == 1 && Enabled(s, steps[0]) && mid == Apply(s, steps[0]))
    requires Runs(mid, more)
    ensures Runs(s, steps + more) && After(s, steps + more) == After(mid, more)
  {
    hide Enabled, Apply;
    if steps == [] {
      assert steps + more == more;
    } else {
      assert (steps + more)[1..] == more;
    }
  }

  /**
   * When does Redis never show the row's outcome, whatever happens? Exactly when it is wrong now,
   * the application is off the set and has no turn to come, its result was sent and its records are
   * committed. A give-up that overwrote an outcome is final just then.
   */
  lemma WrongForGood(w: World, s: State, i: nat)
    requires w.Ok() && Inv(s) && OffsetsOk(s) && InstantsOk(s) && i < |s.c.db.coupons|
    ensures (forall steps | Runs(s, steps) :: !ShowsRow(After(s, steps), i)) <==> Abandoned(s, i)
    ensures Abandoned(s, i) ==>
              && !s.c.db.coupons[i].status.Failed?
              && forall steps | Runs(s, steps) ::
                   HashOf(After(s, steps).redis, CouponKey(s.c.db.coupons[i])).status == Some(FAILED)
  {
    if Abandoned(s, i) {
      forall steps | Runs(s, steps)
        ensures !ShowsRow(After(s, steps), i)
        ensures HashOf(After(s, steps).redis, CouponKey(s.c.db.coupons[i])).status == Some(FAILED)
      {
        StaysFailed(s, steps, i);
      }
      AbandonedIsAGiveUp(s, i);
    } else if ShowsRow(s, i) {
      NoSteps(s);
    } else {
      var _ := CanComeRight(w, s, i);
    }
  }

  lemma CanComeRight(w: World, s: State, i: nat) returns (run: seq<Step>)
    requires w.Ok() && Inv(s) && OffsetsOk(s) && InstantsOk(s) && i < |s.c.db.coupons|
    requires !ShowsRow(s, i) && !Abandoned(s, i)
    ensures Runs(s, run) && ShowsRow(After(s, run), i)
  {
    hide *;
    var steps, mid := CanBeReopened(s, i);
    var ticks, s', to := EverythingCanFinish(w, mid, 0);
    LeadsIsARun(w, mid, 0, ticks, s', to);
    RunsOn(s, steps, mid, StepsOf(ticks));
    run := steps + StepsOf(ticks);
  }
}
