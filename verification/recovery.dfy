/**
 * How the recovery scheduler brings one application to an end, in how many visits and by when.
 *
 * Time is in milliseconds. A visit is one turn of the sweep's loop for the key: the sweep read the
 * clock at sweptAt, found the entry stale, and handled it at at. Any command of a visit may throw;
 * cut is the number of commands that still ran, 0 also when the lookup itself threw.
 */
module Recovery {
  import opened Payloads
  import opened CouponDb
  import opened Redis
  import opened Basics

  // ---------------------------------------------------------------- the store's operations, cut anywhere

  /** Enough for every command of an operation. */
  const ALL_COMMANDS: nat := 3

  /** The HSETNX, HSET and ZADD of a savePendingIfAbsent; only who claims the key goes on. */
  function SavedUpTo(r: Redis, k: Key, requestId: string, eventId: int, createdAt: int, cut: nat): Redis {
    if cut == 0 || !Claims(r, k) then r
    else
      var r1 := HsetnxUserId(r, k);
      if cut == 1 then r1
      else
        var r2 := HsetPending(r1, k, requestId, eventId, createdAt);
        if cut == 2 then r2 else Zadd(r2, k, createdAt)
  }

  /** The HINCRBY, HSET and ZADD of a recordRepublish. */
  function RepublishedUpTo(r: Redis, k: Key, at: int, cut: nat): Redis {
    if cut == 0 then r
    else
      var r1 := HincrAttempts(r, k);
      if cut == 1 then r1
      else
        var r2 := HsetLastPublished(r1, k, at);
        if cut == 2 then r2 else Zadd(r2, k, at)
  }

  /** The HSET, HSET (when there is a code) and ZREM of a markResult. */
  function MarkedUpTo(r: Redis, k: Key, status: PendingStatus, code: Option<string>, cut: nat): Redis {
    if cut == 0 then r
    else
      var r1 := HsetStatus(r, k, status);
      if cut == 1 then r1
      else
        var r2 := if code.Some? then HsetCode(r1, k, code.value) else r1;
        if cut == 2 then r2 else Zrem(r2, k)
  }

  function SavedPending(r: Redis, k: Key, requestId: string, eventId: int, createdAt: int): Redis {
    SavedUpTo(r, k, requestId, eventId, createdAt, ALL_COMMANDS)
  }

  function Marked(r: Redis, k: Key, status: PendingStatus, code: Option<string>): Redis {
    MarkedUpTo(r, k, status, code, ALL_COMMANDS)
  }

  /** What one visit does: take over server-c's outcome, try again, or give up. */
  function Handled(r: Redis, max: int, p: PendingIssue, row: Option<Coupon>, at: int, cut: nat): Redis {
    if row.Some? then MarkedUpTo(r, p.key, MapRowStatus(row.value.status), Some(row.value.code), cut)
    else if p.attempts < max then RepublishedUpTo(r, p.key, at, cut)
    else MarkedUpTo(r, p.key, FAILED, None, cut)
  }

  // ---------------------------------------------------------------- visits

  datatype Visit = Visit(sweptAt: int, at: int, row: Option<Coupon>, cut: nat)

  /** The state after these visits, each working on what it finds. */
  function Visited(r: Redis, max: int, k: Key, visits: seq<Visit>): Redis {
    if visits == [] then r
    else
      var before := Visited(r, max, k, visits[..|visits| - 1]);
      var v := visits[|visits| - 1];
      var p := ReadPending(k, HashOf(before, k));
      if p.Some? then Handled(before, max, p.value, v.row, v.at, v.cut) else before
  }

  /** The entry is in the set and its score is at least the cutoff behind the sweep's clock. */
  predicate Stale(r: Redis, k: Key, sweptAt: int, cutoff: int) {
    k in r.zset && r.zset[k] <= sweptAt - cutoff
  }

  /** Every visit is to a stale entry, and the clock does not run backwards within a sweep. */
  ghost predicate Due(r: Redis, max: int, k: Key, cutoff: int, visits: seq<Visit>) {
    forall i | 0 <= i < |visits| ::
      Stale(Visited(r, max, k, visits[..i]), k, visits[i].sweptAt, cutoff) && visits[i].sweptAt <= visits[i].at
  }

  predicate AllUnknown(visits: seq<Visit>) {
    forall i | 0 <= i < |visits| :: visits[i].row.None?
  }

  /** An outcome is written and the scheduler will not find the entry again. */
  ghost predicate Closed(r: Redis, k: Key, status: PendingStatus) {
    k in r.hashes && r.hashes[k].status == Some(status) && k !in r.zset
  }

  /**
   * What visits come to while server-c knows nothing. rescored counts the retries that moved the
   * score, delay adds up how much later than due they came.
   */
  datatype Tally = Tally(attempts: int, rescored: nat, score: int, delay: int, failed: bool, gone: bool)

  function Next(t: Tally, max: int, cutoff: int, v: Visit): Tally {
    if v.cut == 0 then t
    else if t.attempts < max then
      var counted := t.(attempts := t.attempts + 1);
      if v.cut < ALL_COMMANDS then counted
      else counted.(rescored := t.rescored + 1, score := v.at, delay := t.delay + v.at - (t.score + cutoff))
    else t.(failed := true, gone := t.gone || v.cut >= ALL_COMMANDS)
  }

  function Tallied(createdAt: int, max: int, cutoff: int, visits: seq<Visit>): Tally {
    if visits == [] then Tally(1, 0, createdAt, 0, false, false)
    else Next(Tallied(createdAt, max, cutoff, visits[..|visits| - 1]), max, cutoff, visits[|visits| - 1])
  }

  /** An application that is about to be stored, with the scheduler's settings. */
  datatype Case = Case(r: Redis, k: Key, requestId: string, eventId: int, createdAt: int, max: nat, cutoff: int) {
    ghost predicate Ok() {
      Claims(r, k) && max >= 1
    }

    function After(visits: seq<Visit>): Redis {
      Visited(SavedPending(r, k, requestId, eventId, createdAt), max, k, visits)
    }

    /** Every visit is due, and server-c never knows the application. */
    ghost predicate Hopeless(visits: seq<Visit>) {
      AllUnknown(visits) && Due(SavedPending(r, k, requestId, eventId, createdAt), max, k, cutoff, visits)
    }

    function Sum(visits: seq<Visit>): Tally {
      Tallied(createdAt, max, cutoff, visits)
    }
  }

  /** Redis holds for the application exactly what the tally says. */
  ghost predicate Shows(r: Redis, k: Key, t: Tally, createdAt: int) {
    && k in r.hashes && Complete(k, r.hashes[k]) && r.hashes[k].createdAt == Some(createdAt)
    && r.hashes[k].attempts == Some(t.attempts)
    && r.hashes[k].status == Some(if t.failed then FAILED else PENDING)
    && (k in r.zset <==> !t.gone) && (k in r.zset ==> r.zset[k] == t.score)
  }

  lemma VisitShows(r: Redis, k: Key, t: Tally, createdAt: int, max: int, cutoff: int, v: Visit)
    requires Shows(r, k, t, createdAt) && v.row.None? && (t.gone ==> t.attempts >= max)
    ensures ReadPending(k, HashOf(r, k)).Some?
    ensures Shows(Handled(r, max, ReadPending(k, HashOf(r, k)).value, v.row, v.at, v.cut), k,
                  Next(t, max, cutoff, v), createdAt)
  {}

  /** While server-c does not know the application, Redis shows what the visits come to, wherever they were cut. */
  lemma {:induction false} VisitsShow(c: Case, visits: seq<Visit>)
    requires c.Ok() && AllUnknown(visits)
    ensures Shows(c.After(visits), c.k, c.Sum(visits), c.createdAt)
    ensures c.Sum(visits).gone ==> c.Sum(visits).failed
    ensures c.Sum(visits).failed ==> c.Sum(visits).attempts == c.max
    ensures c.Sum(visits).rescored < c.Sum(visits).attempts <= c.max
    decreases |visits|
  {
    if visits != [] {
      var n := |visits| - 1;
      VisitsShow(c, visits[..n]);
      VisitShows(c.After(visits[..n]), c.k, c.Sum(visits[..n]), c.createdAt, c.max, c.cutoff, visits[n]);
      hide Handled, Shows, ReadPending;
    }
  }

  /** The same as Due, told by the tally. */
  predicate InTime(createdAt: int, max: int, cutoff: int, visits: seq<Visit>) {
    forall i | 0 <= i < |visits| ::
      && !Tallied(createdAt, max, cutoff, visits[..i]).gone
      && Tallied(createdAt, max, cutoff, visits[..i]).score + cutoff <= visits[i].sweptAt <= visits[i].at
  }

  lemma PrefixUnknown(visits: seq<Visit>, i: nat)
    requires AllUnknown(visits) && i <= |visits|
    ensures AllUnknown(visits[..i])
  {}

  lemma DueIsInTime(c: Case, visits: seq<Visit>)
    requires c.Ok() && AllUnknown(visits)
    ensures c.Hopeless(visits) <==> InTime(c.createdAt, c.max, c.cutoff, visits)
  {
    hide Visited, Tallied, Complete;
    forall i | 0 <= i < |visits|
      ensures Stale(c.After(visits[..i]), c.k, visits[i].sweptAt, c.cutoff) <==>
              (!c.Sum(visits[..i]).gone && c.Sum(visits[..i]).score + c.cutoff <= visits[i].sweptAt)
    {
      PrefixUnknown(visits, i);
      VisitsShow(c, visits[..i]);
    }
  }

  /** n waits of this length. */
  function Span(n: nat, wait: int): int {
    n * wait
  }

  lemma OneWaitMore(n: nat, wait: int)
    ensures Span(n + 1, wait) == Span(n, wait) + wait && Span(0, wait) == 0
  {
    assert (n + 1) * wait == n * wait + wait;
  }

  lemma TallyStart(createdAt: int, max: int, cutoff: int)
    ensures Tallied(createdAt, max, cutoff, []) == Tally(1, 0, createdAt, 0, false, false)
  {}

  lemma TallyStep(createdAt: int, max: int, cutoff: int, visits: seq<Visit>, v: Visit)
    ensures Tallied(createdAt, max, cutoff, visits + [v]) == Next(Tallied(createdAt, max, cutoff, visits), max, cutoff, v)
  {
    assert (visits + [v])[..|visits|] == visits;
  }

  /** This visit is due after those. */
  predicate DueAfter(t: Tally, cutoff: int, v: Visit) {
    !t.gone && t.score + cutoff <= v.sweptAt <= v.at
  }

  lemma InTimeStep(createdAt: int, max: int, cutoff: int, visits: seq<Visit>, v: Visit)
    ensures InTime(createdAt, max, cutoff, visits + [v]) <==>
            InTime(createdAt, max, cutoff, visits) && DueAfter(Tallied(createdAt, max, cutoff, visits), cutoff, v)
  {
    hide Tallied;
    var all := visits + [v];
    assert all[..|visits|] == visits && all[|visits|] == v;
    forall i | 0 <= i < |visits| ensures all[..i] == visits[..i] && all[i] == visits[i] {}
  }

  /** The score is the waits made and the delays; a retry that was cut adds nothing to it. */
  lemma {:induction false} ScoreAddsUp(createdAt: int, max: int, cutoff: int, visits: seq<Visit>)
    ensures var t := Tallied(createdAt, max, cutoff, visits); t.score == createdAt + Span(t.rescored, cutoff) + t.delay
    ensures InTime(createdAt, max, cutoff, visits) ==> 0 <= Tallied(createdAt, max, cutoff, visits).delay
    decreases |visits|
  {
    hide Span, Tallied, InTime;
    if visits == [] {
      TallyStart(createdAt, max, cutoff);
      OneWaitMore(0, cutoff);
    } else {
      var before, v := visits[..|visits| - 1], visits[|visits| - 1];
      assert visits == before + [v];
      ScoreAddsUp(createdAt, max, cutoff, before);
      TallyStep(createdAt, max, cutoff, before, v);
      InTimeStep(createdAt, max, cutoff, before, v);
      OneWaitMore(Tallied(createdAt, max, cutoff, before).rescored, cutoff);
    }
  }

  lemma InTimeBefore(createdAt: int, max: int, cutoff: int, visits: seq<Visit>, n: nat)
    requires n <= |visits|
    ensures InTime(createdAt, max, cutoff, visits) ==> InTime(createdAt, max, cutoff, visits[..n])
  {
    hide Tallied;
    forall i | 0 <= i < n ensures visits[..n][..i] == visits[..i] && visits[..n][i] == visits[i] {}
  }

  /** Visit number n, the last one, writes the give-up. */
  predicate GivesUp(c: Case, visits: seq<Visit>) {
    visits != [] && c.Sum(visits[..|visits| - 1]).attempts == c.max && visits[|visits| - 1].cut >= 1
  }

  function LastAt(visits: seq<Visit>): int
    requires visits != []
  {
    visits[|visits| - 1].at
  }

  /** How often the score had moved when the last visit came. */
  function Waits(c: Case, visits: seq<Visit>): nat
    requires visits != []
  {
    c.Sum(visits[..|visits| - 1]).rescored
  }

  lemma LastVisitInTime(c: Case, visits: seq<Visit>)
    requires visits != [] && InTime(c.createdAt, c.max, c.cutoff, visits)
    ensures LastAt(visits) >= c.createdAt + Span(Waits(c, visits) + 1, c.cutoff)
  {
    var n := |visits| - 1;
    ScoreAddsUp(c.createdAt, c.max, c.cutoff, visits[..n]);
    InTimeBefore(c.createdAt, c.max, c.cutoff, visits, n);
    OneWaitMore(Waits(c, visits), c.cutoff);
    hide Span, Tallied;
  }

  /**
   * Convergence. However often sending fails and wherever visits are cut, an application server-c
   * never learns of is given up on only when all max attempts are counted, and no earlier than one
   * cutoff after creation and one more for each retry that moved the score. When every retry did,
   * that is max cutoffs.
   */
  lemma GivesUpAfterItsWaits(c: Case, visits: seq<Visit>)
    requires c.Ok() && c.Hopeless(visits) && visits != []
    ensures var h := c.After(visits).hashes; c.k in h && (h[c.k].status == Some(FAILED) ==> h[c.k].attempts == Some(c.max))
    ensures GivesUp(c, visits) ==> c.After(visits).hashes[c.k].status == Some(FAILED)
    ensures GivesUp(c, visits) && visits[|visits| - 1].cut >= ALL_COMMANDS ==> Closed(c.After(visits), c.k, FAILED)
    ensures Waits(c, visits) <= c.max - 1
    ensures LastAt(visits) >= c.createdAt + Span(Waits(c, visits) + 1, c.cutoff)
    ensures Waits(c, visits) == c.max - 1 ==> LastAt(visits) >= c.createdAt + Span(c.max, c.cutoff)
  {
    hide Visited, Tallied, InTime, Due, Span, Complete;
    DueIsInTime(c, visits);
    LastVisitInTime(c, visits);
    VisitsShow(c, visits);
    PrefixUnknown(visits, |visits| - 1);
    VisitsShow(c, visits[..|visits| - 1]);
    LastTally(c, visits);
  }

  lemma LastTally(c: Case, visits: seq<Visit>)
    requires visits != []
    ensures c.Sum(visits) == Next(c.Sum(visits[..|visits| - 1]), c.max, c.cutoff, visits[|visits| - 1])
  {}

  // ---------------------------------------------------------------- the exact bound

  /** The delays of all waits that were made and of the last visit. */
  function TotalDelay(c: Case, visits: seq<Visit>): int
    requires visits != []
  {
    var t := c.Sum(visits[..|visits| - 1]);
    t.delay + LastAt(visits) - (t.score + c.cutoff)
  }

  /**
   * The reports promise an outcome within max cutoffs (30 seconds). A give-up meets that exactly
   * when all delays together are no longer than the waits it left out; when it left out none, that
   * is when there was no delay at all.
   */
  lemma WithinTheCapExactly(c: Case, visits: seq<Visit>)
    requires c.Ok() && c.Hopeless(visits) && GivesUp(c, visits)
    ensures 0 <= TotalDelay(c, visits) && Waits(c, visits) < c.max
    ensures LastAt(visits) <= c.createdAt + Span(c.max, c.cutoff) <==>
            TotalDelay(c, visits) <= Span(c.max - 1 - Waits(c, visits), c.cutoff)
  {
    hide Visited, Tallied, Due, Span, Complete;
    var n := |visits| - 1;
    DueIsInTime(c, visits);
    InTimeBefore(c.createdAt, c.max, c.cutoff, visits, n);
    ScoreAddsUp(c.createdAt, c.max, c.cutoff, visits[..n]);
    PrefixUnknown(visits, n);
    VisitsShow(c, visits[..n]);
    OneWaitMore(Waits(c, visits), c.cutoff);
    SpanSplits(Waits(c, visits) + 1, c.max - 1 - Waits(c, visits), c.cutoff);
  }

  lemma SpanSplits(m: nat, n: nat, wait: int)
    ensures Span(m + n, wait) == Span(m, wait) + Span(n, wait)
  {
    assert (m + n) * wait == m * wait + n * wait;
  }

  predicate SameCuts(visits: seq<Visit>, others: seq<Visit>) {
    |visits| == |others| && forall i | 0 <= i < |visits| :: visits[i].cut == others[i].cut && visits[i].row == others[i].row
  }

  lemma {:induction false} CutsDecide(c: Case, visits: seq<Visit>, others: seq<Visit>)
    requires SameCuts(visits, others)
    ensures var s, t := c.Sum(visits), c.Sum(others);
            s.attempts == t.attempts && s.rescored == t.rescored && s.gone == t.gone && s.failed == t.failed
    ensures Idle(c, visits) == Idle(c, others)
    decreases |visits|
  {
    if visits != [] {
      CutsDecide(c, visits[..|visits| - 1], others[..|visits| - 1]);
    }
  }

  /** Sweeps do not overlap, and begin at least every apart. */
  predicate Spaced(visits: seq<Visit>, every: nat) {
    forall i | 0 <= i < |visits| - 1 ::
      visits[i + 1].sweptAt >= visits[i].sweptAt + every && visits[i + 1].sweptAt >= visits[i].at
  }

  predicate Rescores(t: Tally, max: int, v: Visit) {
    v.cut >= ALL_COMMANDS && t.attempts < max
  }

  /** Visits that did not move the score. */
  function Idle(c: Case, visits: seq<Visit>): nat {
    if visits == [] then 0
    else
      var n := |visits| - 1;
      Idle(c, visits[..n]) + if Rescores(c.Sum(visits[..n]), c.max, visits[n]) then 0 else 1
  }

  function Longer(a: int, b: int): int {
    if a >= b then a else b
  }

  /** When the visit after these can come at the earliest: a wait after a moved score, else the next sweep. */
  function Soonest(c: Case, visits: seq<Visit>, every: nat): int {
    c.createdAt + c.cutoff + Span(c.Sum(visits).rescored, Longer(c.cutoff, every)) + Span(Idle(c, visits), every)
  }

  lemma SoonestStart(c: Case, every: nat)
    ensures Soonest(c, [], every) == c.createdAt + c.cutoff && c.Sum([]).score == c.createdAt
  {}

  lemma SoonestStep(c: Case, visits: seq<Visit>, v: Visit, every: nat)
    ensures Soonest(c, visits + [v], every) == Soonest(c, visits, every) +
              if Rescores(c.Sum(visits), c.max, v) then Longer(c.cutoff, every) else every
    ensures c.Sum(visits + [v]).score == if Rescores(c.Sum(visits), c.max, v) then v.at else c.Sum(visits).score
  {
    assert (visits + [v])[..|visits|] == visits;
    OneWaitMore(c.Sum(visits).rescored, Longer(c.cutoff, every));
    OneWaitMore(Idle(c, visits), every);
    hide Span, Longer;
  }

  lemma SpacedStep(visits: seq<Visit>, v: Visit, every: nat)
    ensures Spaced(visits + [v], every) <==>
            Spaced(visits, every) &&
            (visits != [] ==> v.sweptAt >= visits[|visits| - 1].sweptAt + every && v.sweptAt >= visits[|visits| - 1].at)
  {
    var all := visits + [v];
    if Spaced(all, every) {
      forall i | 0 <= i < |visits| - 1
        ensures visits[i + 1].sweptAt >= visits[i].sweptAt + every && visits[i + 1].sweptAt >= visits[i].at
      {
        assert all[i + 1] == visits[i + 1] && all[i] == visits[i];
      }
      if visits != [] { assert all[|visits| - 1 + 1] == v && all[|visits| - 1] == visits[|visits| - 1]; }
    }
  }

  /** No visit comes sooner. */
  lemma {:induction false} NoneIsSooner(c: Case, visits: seq<Visit>, every: nat)
    requires InTime(c.createdAt, c.max, c.cutoff, visits) && Spaced(visits, every) && visits != []
    ensures visits[|visits| - 1].sweptAt >= Soonest(c, visits[..|visits| - 1], every)
    decreases |visits|
  {
    hide Tallied, InTime, Soonest, Spaced;
    var before, v := visits[..|visits| - 1], visits[|visits| - 1];
    assert visits == before + [v];
    InTimeStep(c.createdAt, c.max, c.cutoff, before, v);
    SpacedStep(before, v, every);
    SoonestStart(c, every);
    if before != [] {
      NoneIsSooner(c, before, every);
      var earlier, u := before[..|before| - 1], before[|before| - 1];
      assert before == earlier + [u];
      InTimeStep(c.createdAt, c.max, c.cutoff, earlier, u);
      SoonestStep(c, earlier, u, every);
    }
  }

  /** The same visits, each as early as it can come. */
  function Earliest(c: Case, visits: seq<Visit>, every: nat): seq<Visit> {
    if visits == [] then []
    else
      var n := |visits| - 1;
      var earlier := Earliest(c, visits[..n], every);
      var at := Soonest(c, earlier, every);
      earlier + [Visit(at, at, visits[n].row, visits[n].cut)]
  }

  /** early are these visits, in time and spaced, and none of them later than it has to be. */
  predicate IsEarly(c: Case, visits: seq<Visit>, early: seq<Visit>, every: nat) {
    && SameCuts(visits, early) && InTime(c.createdAt, c.max, c.cutoff, early) && Spaced(early, every)
    && c.Sum(early).score + c.cutoff <= Soonest(c, early, every)
    && (early != [] ==>
          && LastAt(early) == early[|early| - 1].sweptAt
          && LastAt(early) + every <= Soonest(c, early, every))
  }

  lemma OneEarlyMore(c: Case, before: seq<Visit>, v: Visit, earlier: seq<Visit>, every: nat)
    requires IsEarly(c, before, earlier, every) && DueAfter(c.Sum(before), c.cutoff, v)
    ensures var at := Soonest(c, earlier, every);
            IsEarly(c, before + [v], earlier + [Visit(at, at, v.row, v.cut)], every)
  {
    hide Tallied, InTime, Soonest, Spaced, Idle;
    var at := Soonest(c, earlier, every);
    var u := Visit(at, at, v.row, v.cut);
    CutsDecide(c, before, earlier);
    InTimeStep(c.createdAt, c.max, c.cutoff, earlier, u);
    SpacedStep(earlier, u, every);
    SoonestStep(c, earlier, u, every);
    SameCutsStep(before, v, earlier, u);
    assert (earlier + [u])[|earlier|] == u;
    hide SameCuts;
  }

  lemma SameCutsStep(visits: seq<Visit>, v: Visit, others: seq<Visit>, u: Visit)
    requires SameCuts(visits, others) && v.cut == u.cut && v.row == u.row
    ensures SameCuts(visits + [v], others + [u])
  {}

  lemma {:induction false} EarliestIsInTime(c: Case, visits: seq<Visit>, every: nat)
    requires InTime(c.createdAt, c.max, c.cutoff, visits)
    ensures IsEarly(c, visits, Earliest(c, visits, every), every)
    decreases |visits|
  {
    hide Tallied, InTime, Soonest, Spaced, IsEarly, DueAfter;
    if visits == [] {
      NoVisits(c, every);
    } else {
      var before, v := visits[..|visits| - 1], visits[|visits| - 1];
      assert visits == before + [v];
      InTimeStep(c.createdAt, c.max, c.cutoff, before, v);
      EarliestIsInTime(c, before, every);
      OneEarlyMore(c, before, v, Earliest(c, before, every), every);
    }
  }

  lemma NoVisits(c: Case, every: nat)
    ensures IsEarly(c, [], [], every)
  {
    SoonestStart(c, every);
  }

  /** The visits before the last that did not move the score. */
  function Pauses(c: Case, visits: seq<Visit>): nat
    requires visits != []
  {
    Idle(c, visits[..|visits| - 1])
  }

  /** The time the visits before the last take at least: a wait each, or a pause between two sweeps. */
  function LeastTime(c: Case, visits: seq<Visit>, every: nat): int
    requires visits != []
  {
    Span(Waits(c, visits), Longer(c.cutoff, every)) + Span(Pauses(c, visits), every)
  }

  /**
   * When does every schedule of these visits keep the give-up max cutoffs away, with sweeps at least
   * every apart? Exactly when the waits it makes and the pauses after visits that did not move the
   * score already take that long.
   */
  lemma MaxCutoffsAreKeptExactly(c: Case, visits: seq<Visit>, every: nat)
    requires c.Ok() && c.Hopeless(visits) && GivesUp(c, visits)
    ensures (forall others | SameCuts(visits, others) && c.Hopeless(others) && Spaced(others, every) ::
               LastAt(others) >= c.createdAt + Span(c.max, c.cutoff))
            <==> LeastTime(c, visits, every) >= Span(c.max - 1, c.cutoff)
    ensures Waits(c, visits) <= c.max - 1
    ensures Waits(c, visits) == c.max - 1 ==> LeastTime(c, visits, every) >= Span(c.max - 1, c.cutoff)
  {
    hide Visited, Tallied, Due, Span, Complete, InTime, Earliest, Idle, Spaced;
    var n := |visits| - 1;
    PrefixUnknown(visits, n);
    VisitsShow(c, visits[..n]);
    OneWaitMore(c.max - 1, c.cutoff);
    forall others | SameCuts(visits, others) && c.Hopeless(others) && Spaced(others, every)
      ensures LastAt(others) >= c.createdAt + c.cutoff + LeastTime(c, visits, every)
    {
      CutsDecide(c, visits[..n], others[..n]);
      DueIsInTime(c, others);
      NoneIsSooner(c, others, every);
      LastIsInTime(c, others);
    }
    EarliestRunIsDue(c, visits, every);
    SpanOrder(Waits(c, visits), c.cutoff, Longer(c.cutoff, every), Pauses(c, visits), every);
  }

  lemma LastIsInTime(c: Case, visits: seq<Visit>)
    requires visits != [] && InTime(c.createdAt, c.max, c.cutoff, visits)
    ensures visits[|visits| - 1].sweptAt <= LastAt(visits)
  {}

  lemma SpanOrder(n: nat, wait: int, longer: int, m: nat, every: nat)
    requires wait <= longer
    ensures Span(n, wait) <= Span(n, longer) && 0 <= Span(m, every)
  {
    MulOrder(wait, longer, n);
  }

  lemma EarliestRunIsDue(c: Case, visits: seq<Visit>, every: nat)
    requires c.Ok() && c.Hopeless(visits) && visits != []
    ensures var early := Earliest(c, visits, every);
            && SameCuts(visits, early) && c.Hopeless(early) && Spaced(early, every)
            && LastAt(early) == c.createdAt + c.cutoff + LeastTime(c, visits, every)
  {
    hide Visited, Tallied, Due, Span, Complete, InTime, Idle, Spaced;
    var n := |visits| - 1;
    var early := Earliest(c, visits, every);
    DueIsInTime(c, visits);
    EarliestIsInTime(c, visits, every);
    DueIsInTime(c, early);
    InTimeBefore(c.createdAt, c.max, c.cutoff, visits, n);
    EarliestIsInTime(c, visits[..n], every);
    CutsDecide(c, visits[..n], Earliest(c, visits[..n], every));
  }

  // ---------------------------------------------------------------- how many visits, and how late

  /** Visits that counted no attempt and did not take the entry off the set. */
  function Wasted(c: Case, visits: seq<Visit>): nat {
    if visits == [] then 0
    else
      var n := |visits| - 1;
      var t := c.Sum(visits[..n]);
      Wasted(c, visits[..n]) + if visits[n].cut == 0 || (t.attempts >= c.max && visits[n].cut < ALL_COMMANDS) then 1 else 0
  }

  lemma {:induction false} VisitsAreSpent(c: Case, visits: seq<Visit>)
    requires c.max >= 1 && InTime(c.createdAt, c.max, c.cutoff, visits)
    ensures var t := c.Sum(visits); |visits| == Wasted(c, visits) + (t.attempts - 1) + (if t.gone then 1 else 0)
    ensures c.Sum(visits).attempts <= c.max
    decreases |visits|
  {
    hide Tallied, InTime;
    if visits == [] {
      TallyStart(c.createdAt, c.max, c.cutoff);
    } else {
      var before, v := visits[..|visits| - 1], visits[|visits| - 1];
      assert visits == before + [v];
      InTimeStep(c.createdAt, c.max, c.cutoff, before, v);
      VisitsAreSpent(c, before);
      TallyStep(c.createdAt, c.max, c.cutoff, before, v);
    }
  }

  /**
   * At most max visits are not wasted: max - 1 count a retry and one takes the entry off. The
   * application is closed exactly when there have been that many; what is cut short of that is
   * visited again.
   */
  lemma OnlyCutVisitsAreRepeated(c: Case, visits: seq<Visit>)
    requires c.Ok() && c.Hopeless(visits)
    ensures |visits| <= c.max + Wasted(c, visits)
    ensures |visits| == c.max + Wasted(c, visits) <==> Closed(c.After(visits), c.k, FAILED)
  {
    hide Visited, Tallied, Due, Complete, InTime, Wasted;
    DueIsInTime(c, visits);
    VisitsAreSpent(c, visits);
    VisitsShow(c, visits);
  }

  /** When visit i could come at the earliest: at once after one that left the score, else when due. */
  function ReadyAt(c: Case, visits: seq<Visit>, i: nat): int
    requires i < |visits|
  {
    if i > 0 && c.Sum(visits[..i]).rescored == c.Sum(visits[..i - 1]).rescored then visits[i - 1].at
    else c.Sum(visits[..i]).score + c.cutoff
  }

  /** No visit is more than gap later than it could be. */
  ghost predicate Prompt(c: Case, visits: seq<Visit>, gap: int) {
    forall i | 0 <= i < |visits| :: visits[i].at <= ReadyAt(c, visits, i) + gap
  }

  lemma ScoreIsTheLastMove(c: Case, visits: seq<Visit>, i: nat)
    requires 0 < i <= |visits| && c.Sum(visits[..i]).rescored != c.Sum(visits[..i - 1]).rescored
    ensures c.Sum(visits[..i]).rescored == c.Sum(visits[..i - 1]).rescored + 1
    ensures c.Sum(visits[..i]).score == visits[i - 1].at
  {
    assert visits[..i][..i - 1] == visits[..i - 1];
  }

  lemma {:induction false} PromptAddsUp(c: Case, visits: seq<Visit>, gap: int, i: nat)
    requires i < |visits| && Prompt(c, visits, gap)
    ensures visits[i].at <= c.createdAt + Span(c.Sum(visits[..i]).rescored + 1, c.cutoff) + Span(i + 1, gap)
  {
    hide Span, Tallied;
    OneWaitMore(i, gap);
    OneWaitMore(c.Sum(visits[..i]).rescored, c.cutoff);
    assert visits[i].at <= ReadyAt(c, visits, i) + gap;
    if i == 0 {
      FirstTally(c, visits);
    } else {
      PromptAddsUp(c, visits, gap, i - 1);
      if c.Sum(visits[..i]).rescored != c.Sum(visits[..i - 1]).rescored { ScoreIsTheLastMove(c, visits, i); }
    }
  }

  lemma FirstTally(c: Case, visits: seq<Visit>)
    ensures c.Sum(visits[..0]).rescored == 0 && c.Sum(visits[..0]).score == c.createdAt
    ensures Span(0, c.cutoff) == 0
  {}

  /** With no visit more than gap late, n visits end at most n gaps after the waits they made. */
  lemma GivesUpByThen(c: Case, visits: seq<Visit>, gap: int)
    requires visits != [] && Prompt(c, visits, gap)
    ensures LastAt(visits) <= c.createdAt + Span(Waits(c, visits) + 1, c.cutoff) + Span(|visits|, gap)
    ensures |visits| == c.max == Waits(c, visits) + 1 ==> LastAt(visits) <= c.createdAt + Span(c.max, c.cutoff + gap)
  {
    hide Tallied, Prompt;
    PromptAddsUp(c, visits, gap, |visits| - 1);
    if |visits| == c.max == Waits(c, visits) + 1 { SpanOfBoth(c.max, c.cutoff, gap); }
    hide Span;
  }

  lemma SpanOfBoth(n: nat, a: int, b: int)
    ensures Span(n, a + b) == Span(n, a) + Span(n, b)
  {
    assert n * (a + b) == n * a + n * b;
  }

  /** As soon as a visit that is not cut finds the row, the application is closed with its outcome and code. */
  lemma KnownOutcomesClose(c: Case, visits: seq<Visit>, v: Visit)
    requires c.Ok() && AllUnknown(visits) && v.row.Some? && v.cut >= ALL_COMMANDS
    ensures var end := c.After(visits + [v]);
            && Closed(end, c.k, MapRowStatus(v.row.value.status))
            && end.hashes[c.k].code == Some(v.row.value.code)
            && end.hashes[c.k].attempts == Some(c.Sum(visits).attempts)
  {
    VisitsShow(c, visits);
    assert (visits + [v])[..|visits|] == visits;
  }

  // ---------------------------------------------------------------- inputs that show it

  function Settings(r: Redis, k: Key): Case {
    Case(r, k, "r", 1, 0, 3, 10000)
  }

  lemma TalliesOfThree(c: Case, a: Visit, b: Visit, d: Visit)
    ensures c.Sum([]) == Tally(1, 0, c.createdAt, 0, false, false)
    ensures c.Sum([a]) == Next(c.Sum([]), c.max, c.cutoff, a)
    ensures c.Sum([a, b]) == Next(c.Sum([a]), c.max, c.cutoff, b)
    ensures c.Sum([a, b, d]) == Next(c.Sum([a, b]), c.max, c.cutoff, d)
  {
    assert [a][..0] == [] && [a, b][..1] == [a] && [a, b, d][..2] == [a, b];
  }

  lemma ThreeAreDue(c: Case, a: Visit, b: Visit, d: Visit)
    requires c.Ok() && a.row.None? && b.row.None? && d.row.None?
    requires !c.Sum([]).gone && c.Sum([]).score + c.cutoff <= a.sweptAt <= a.at
    requires !c.Sum([a]).gone && c.Sum([a]).score + c.cutoff <= b.sweptAt <= b.at
    requires !c.Sum([a, b]).gone && c.Sum([a, b]).score + c.cutoff <= d.sweptAt <= d.at
    ensures c.Hopeless([a, b, d])
  {
    hide Tallied, Due;
    var visits := [a, b, d];
    assert visits[..0] == [] && visits[..1] == [a] && visits[..2] == [a, b];
    DueIsInTime(c, visits);
  }

  /** With the defaults and sweeps a tenth of a second late the promise is missed: 30.3 seconds. */
  lemma ThirtySecondsAreMissed(r: Redis, k: Key)
    requires Claims(r, k)
    ensures var c := Settings(r, k);
            var visits := [Visit(10100, 10100, None, 3), Visit(20200, 20200, None, 3), Visit(30300, 30300, None, 3)];
            c.Hopeless(visits) && Closed(c.After(visits), k, FAILED) && LastAt(visits) > 30000
  {
    var c := Settings(r, k);
    var a, b, d := Visit(10100, 10100, None, 3), Visit(20200, 20200, None, 3), Visit(30300, 30300, None, 3);
    TalliesOfThree(c, a, b, d);
    hide Tallied, Visited, Due, Complete;
    ThreeAreDue(c, a, b, d);
    VisitsShow(c, [a, b, d]);
  }

  /**
   * And it can be far too early: when the retries at 10 and 11 seconds are cut after counting, the
   * sweep at 12 seconds gives up. Nothing was sent again.
   */
  lemma TwelveSecondsCanBeEnough(r: Redis, k: Key)
    requires Claims(r, k)
    ensures var c := Settings(r, k);
            var visits := [Visit(10000, 10000, None, 1), Visit(11000, 11000, None, 1), Visit(12000, 12000, None, 3)];
            && c.Hopeless(visits) && GivesUp(c, visits) && Waits(c, visits) == 0
            && Closed(c.After(visits), k, FAILED) && LastAt(visits) == 12000
  {
    var c := Settings(r, k);
    var a, b, d := Visit(10000, 10000, None, 1), Visit(11000, 11000, None, 1), Visit(12000, 12000, None, 3);
    TalliesOfThree(c, a, b, d);
    assert [a, b, d][..2] == [a, b];
    hide Tallied, Visited, Due, Complete;
    ThreeAreDue(c, a, b, d);
    VisitsShow(c, [a, b, d]);
  }

  /** A give-up whose ZREM fails leaves a FAILED entry in the set, and it is visited once more. */
  lemma FailedEntriesCanBeVisitedAgain(r: Redis, k: Key)
    requires Claims(r, k)
    ensures var c := Settings(r, k).(max := 1);
            var first := [Visit(10000, 10000, None, 1)]; var again := Visit(11000, 11000, None, 3);
            && k in c.After(first).hashes && c.After(first).hashes[k].status == Some(FAILED) && k in c.After(first).zset
            && c.Hopeless(first + [again]) && |first + [again]| > c.max
  {
    var c := Settings(r, k).(max := 1);
    var a, b := Visit(10000, 10000, None, 1), Visit(11000, 11000, None, 3);
    TalliesOfThree(c, a, b, b);
    hide Tallied, Visited, Due, Complete;
    VisitsShow(c, [a]);
    assert [a] + [b] == [a, b] && [a, b][..0] == [] && [a, b][..1] == [a];
    DueIsInTime(c, [a, b]);
  }
}
