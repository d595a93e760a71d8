/**
 * The scheduler alone, with nothing failing: a sweep comes to its end, each of its entries leaves
 * the set or has one attempt more, and sweep after sweep, each over the batch that is due, the set
 * empties.
 */
module SchedulerProgress {
  import opened Basics
  import opened Payloads
  import opened CouponDb
  import opened Redis
  import opened System
  import opened SystemProofs
  import opened SystemTheorems
  import opened ResultOffsets
  import opened Calm
  import opened RunFairness
  import opened FinalOutcomes
  import F = Fairness

  predicate AtRest(s: State) {
    s.sched.Resting? && s.redis.zset == map[]
  }

  /** A calm run in which the scheduler comes first: others move only when it has nothing left to do. */
  ghost predicate Goes(w: World, s: State, from: int, ticks: seq<Tick>, s': State, to: int)
    decreases ticks
  {
    if ticks == [] then s == s' && from <= to
    else
      && from <= ticks[0].at && Enabled(s, ticks[0].step) && CalmTick(w, s, ticks[0])
      && (ticks[0].step.Recovering? || AtRest(s))
      && Goes(w, Apply(s, ticks[0].step), ticks[0].at, ticks[1..], s', to)
  }

  lemma GoesNowhere(w: World, s: State, from: int)
    ensures Goes(w, s, from, [], s, from)
  {}

  lemma GoesByOne(w: World, s: State, from: int, t: Tick, rest: seq<Tick>, s': State, to: int)
    requires from <= t.at && Enabled(s, t.step) && CalmTick(w, s, t) && (t.step.Recovering? || AtRest(s))
    requires Goes(w, Apply(s, t.step), t.at, rest, s', to)
    ensures Goes(w, s, from, [t] + rest, s', to)
  {
    hide Enabled, Apply, CalmTick;
    assert ([t] + rest)[1..] == rest;
  }

  lemma {:induction false} GoesOn(w: World, s: State, from: int, xs: seq<Tick>, mid: State, at: int, ys: seq<Tick>,
                                  s': State, to: int)
    requires Goes(w, s, from, xs, mid, at) && Goes(w, mid, at, ys, s', to)
    ensures Goes(w, s, from, xs + ys, s', to)
    decreases xs
  {
    hide Enabled, Apply, CalmTick;
    if xs == [] {
      assert xs + ys == ys;
    } else {
      GoesOn(w, Apply(s, xs[0].step), xs[0].at, xs[1..], mid, at, ys, s', to);
      GoesByOne(w, s, from, xs[0], xs[1..] + ys, s', to);
      assert [xs[0]] + (xs[1..] + ys) == xs + ys;
    }
  }

  lemma {:induction false} GoesIsCalm(w: World, s: State, from: int, ticks: seq<Tick>, s': State, to: int)
    requires Goes(w, s, from, ticks, s', to)
    ensures Leads(w, s, from, ticks, s', to)
    decreases ticks
  {
    hide Enabled, Apply, CalmTick;
    if ticks != [] { GoesIsCalm(w, Apply(s, ticks[0].step), ticks[0].at, ticks[1..], s', to); }
  }

  // ---------------------------------------------------------------- the next step of a sweep

  function MarkLeft(pc: MarkPc): nat {
    match pc
    case SettingStatus => 3
    case SettingCode => 2
    case Removing => 1
  }

  function RetryLeft(pc: RepublishPc): nat {
    match pc
    case Counting => 4
    case Stamping => 3
    case Rescoring => 2
    case Resending => 1
  }

  /** How many steps the sweep can still take. */
  function WorkLeft(sched: Scheduler): nat {
    match sched
    case Resting => 0
    case Fetching(todo, got) => 1 + |todo| + 8 * (|todo| + |got|)
    case Working(queue) => 8 * |queue|
    case Marking(m, _, queue) => 8 * |queue| + MarkLeft(m.pc)
    case Republishing(_, _, pc, queue) => 8 * |queue| + RetryLeft(pc)
  }

  /** The row a lookup finds, if there is one. */
  function RowOf(cs: seq<Coupon>, k: Key): (row: Option<nat>)
    ensures row.Some? ==> row.value < |cs| && CouponKey(cs[row.value]) == k
    ensures row.None? ==> !HasKey(cs, k)
  {
    if cs == [] then None
    else if CouponKey(cs[|cs| - 1]) == k then Some(|cs| - 1)
    else RowOf(cs[..|cs| - 1], k)
  }

  function NextTurn(s: State, at: int): SchedStep {
    match s.sched
    case Resting => Sweep([])
    case Fetching(_, _) => FetchOne
    case Working(queue) => if queue == [] then FetchOne else Visit(RowOf(s.c.db.coupons, queue[0].key), at)
    case Marking(_, _, _) => SchedMarkNext
    case Republishing(p, _, _, _) => RepublishNext(ValidRequest(RebuiltPayload(p)))
  }

  function Turned(s: State, at: int): State
    requires CanSchedule(s, NextTurn(s, at))
  {
    SchedNext(s, NextTurn(s, at))
  }

  lemma TurnIsPossible(w: World, s: State, at: int)
    requires SchedOk(s.c.db.coupons, s.max, s.redis, s.enlisted, s.sched) && !s.sched.Resting?
    ensures var t := Tick(at, Recovering(NextTurn(s, at)));
            && CanSchedule(s, NextTurn(s, at)) && !NextTurn(s, at).Sweep?
            && Enabled(s, t.step) && CalmTick(w, s, t) && Apply(s, t.step) == Turned(s, at)
  {
    hide QueueOk, MarkOk, CarriesRow, ValidRequest, RowOf, Filled, SchedNext, IsSwept;
  }

  lemma FetchIsWork(s: State)
    requires s.sched.Fetching?
    ensures WorkLeft(FetchNext(s).sched) < WorkLeft(s.sched)
  {
    hide ReadPending, Zrem;
  }

  lemma TurnIsWork(s: State, at: int)
    requires CanSchedule(s, NextTurn(s, at)) && !s.sched.Resting?
    ensures WorkLeft(Turned(s, at).sched) < WorkLeft(s.sched)
  {
    hide ValidRequest, RowOf, ReadPending, MarkCommand, HasKey, Published, FetchNext;
    if s.sched.Fetching? { FetchIsWork(s); }
  }

  // ---------------------------------------------------------------- what a sweep does to the set

  /** Everything the sweep still has in hand is on the set. */
  ghost predicate OnSet(s: State) {
    && (forall k | InHand(s.sched, k) :: k in s.redis.zset)
    && (s.sched.Marking? ==> NotQueued(s.sched.queue, s.sched.mark.key))
  }

  /** The key's turn is not over: it is not counted yet, and not off the set. */
  ghost predicate Waits(sched: Scheduler, k: Key) {
    InHand(sched, k) && !(sched.Republishing? && sched.p.key == k && !sched.pc.Counting?)
  }

  predicate Handled(s: State, s': State, k: Key) {
    k !in s'.redis.zset || AttemptsOf(s', k) > AttemptsOf(s, k)
  }

  /** One key over one step of a sweep. */
  ghost predicate MovesKey(s: State, s': State, k: Key) {
    && (Waits(s.sched, k) ==> Waits(s'.sched, k) || Handled(s, s', k))
    && (InHand(s'.sched, k) ==> InHand(s.sched, k) && k in s'.redis.zset)
    && (k in s'.redis.zset ==> k in s.redis.zset)
  }

  lemma FetchMovesKey(s: State, k: Key)
    requires s.sched.Fetching? && OnSet(s)
    requires SchedOk(s.c.db.coupons, s.max, s.redis, s.enlisted, s.sched) && EnlistedOk(s.redis, s.enlisted)
    ensures MovesKey(s, FetchNext(s), k) && !FetchNext(s).sched.Marking?
  {
    var todo, got := s.sched.todo, s.sched.got;
    BackInHand(got, k);
    if todo != [] {
      assert todo[0] in s.enlisted && Filled(s.redis, todo[0]);
      var p := ReadPending(todo[0], s.redis.hashes[todo[0]]).value;
      assert ReadPending(todo[0], s.redis.hashes[todo[0]]).Some? && p.key == todo[0];
      OneRead(got, p, k);
      assert k in todo <==> k == todo[0] || k in todo[1..];
    }
    hide NotQueued, QueueOk, Filled, ReadPending, HashOf;
  }

  lemma HeadIsNotQueued(r: Redis, e: set<Key>, queue: seq<PendingIssue>)
    requires QueueOk(r, e, queue) && queue != []
    ensures NotQueued(queue[1..], queue[0].key)
  {}

  lemma VisitMovesKey(s: State, row: Option<nat>, at: int, k: Key)
    requires CanSchedule(s, Visit(row, at)) && OnSet(s)
    requires SchedOk(s.c.db.coupons, s.max, s.redis, s.enlisted, s.sched)
    ensures var s' := SchedNext(s, Visit(row, at));
            MovesKey(s, s', k) && (s'.sched.Marking? ==> NotQueued(s'.sched.queue, s'.sched.mark.key))
  {
    OneFewer(s.sched.queue, k);
    HeadIsNotQueued(s.redis, s.enlisted, s.sched.queue);
    hide NotQueued, HasKey, QueueOk, AttemptsOf;
  }

  lemma MarkMovesKey(s: State, k: Key)
    requires s.sched.Marking? && OnSet(s)
    ensures var s' := SchedNext(s, SchedMarkNext);
            MovesKey(s, s', k) && (s'.sched.Marking? ==> NotQueued(s'.sched.queue, s'.sched.mark.key))
  {
    BackInHand(s.sched.queue, k);
    Outcomes.MarkWrites(s.redis, s.sched.mark, k);
    hide NotQueued, MarkCommand, HashOf, AttemptsOf;
  }

  lemma RetryMovesKey(s: State, ok: bool, k: Key)
    requires CanSchedule(s, RepublishNext(ok)) && OnSet(s)
    requires SchedOk(s.c.db.coupons, s.max, s.redis, s.enlisted, s.sched)
    ensures var s' := RepublishStep(s, ok); MovesKey(s, s', k) && !s'.sched.Marking?
  {
    BackInHand(s.sched.queue, k);
    Outcomes.RetryWrites(s, ok, k);
    if s.sched.pc.Counting? { CountingCounts(s, ok); }
    hide NotQueued, HashOf, HincrAttempts, HsetLastPublished, Zadd, ValidRequest, QueueOk, AttemptsOf;
  }

  lemma CountingCounts(s: State, ok: bool)
    requires s.sched.Republishing? && s.sched.pc.Counting? && Filled(s.redis, s.sched.p.key)
    ensures AttemptsOf(RepublishStep(s, ok), s.sched.p.key) == AttemptsOf(s, s.sched.p.key) + 1
  {}

  lemma TurnMovesKey(s: State, at: int, k: Key)
    requires Inv(s) && OnSet(s) && !s.sched.Resting? && CanSchedule(s, NextTurn(s, at)) && !NextTurn(s, at).Sweep?
    ensures var s' := Turned(s, at);
            MovesKey(s, s', k) && (s'.sched.Marking? ==> NotQueued(s'.sched.queue, s'.sched.mark.key))
  {
    InvHasParts(s);
    hide Inv, SchedOk, EnlistedOk, AcceptsOk, OnSet, MovesKey, RowOf, HasKey;
    match s.sched
    case Fetching(_, _) => FetchMovesKey(s, k);
    case Working(queue) => VisitMovesKey(s, RowOf(s.c.db.coupons, queue[0].key), at, k);
    case Marking(_, _, _) => MarkMovesKey(s, k);
    case Republishing(p, _, _, _) => RetryMovesKey(s, ValidRequest(RebuiltPayload(p)), k);
  }

  /** No instant is before 1970. */
  predicate InstantsOk(s: State) {
    && (forall k | k in s.redis.zset :: 0 <= s.redis.zset[k])
    && (forall id | id in s.accepts :: 0 <= s.accepts[id].now)
    && (s.sched.Republishing? ==> 0 <= s.sched.at)
  }

  /** Nor is what this step reads off the clock. */
  predicate ClockOk(step: Step) {
    && (step.Accepting? && step.accept.Claim? ==> 0 <= step.accept.now)
    && (step.Recovering? && step.sched.Visit? ==> 0 <= step.sched.now)
  }

  lemma AcceptsKeepInstants(s: State, id: nat, step: AcceptStep)
    requires InstantsOk(s) && CanAccept(s, id, step) && ClockOk(Accepting(id, step))
    ensures InstantsOk(AcceptNext(s, id, step))
  {
    hide ValidRequest, Claims;
  }

  lemma SchedulerKeepsInstants(s: State, step: SchedStep)
    requires InstantsOk(s) && CanSchedule(s, step) && ClockOk(Recovering(step))
    ensures InstantsOk(SchedNext(s, step))
  {
    hide HasKey, ValidRequest, ReadPending, HashOf, RebuiltPayload, NotQueued;
  }

  /** A clock that never shows an earlier time keeps it so. */
  lemma {:induction false} RunKeepsInstants(s: State, steps: seq<Step>)
    requires InstantsOk(s) && Runs(s, steps) && forall n | 0 <= n < |steps| :: ClockOk(steps[n])
    ensures InstantsOk(After(s, steps))
    decreases steps
  {
    if steps != [] {
      match steps[0] {
        case Accepting(id, st) => AcceptsKeepInstants(s, id, st);
        case Recovering(st) => SchedulerKeepsInstants(s, st);
        case Consuming(j, st) =>
        case Server(_) =>
        case LateSend(_) =>
      }
      assert InstantsOk(Apply(s, steps[0]));
      hide Enabled, Apply, InstantsOk;
      RunKeepsInstants(Apply(s, steps[0]), steps[1..]);
    }
  }

  lemma TurnKeepsInstants(s: State, at: int)
    requires InstantsOk(s) && at >= 0 && CanSchedule(s, NextTurn(s, at))
    ensures InstantsOk(Turned(s, at))
  {
    SchedulerKeepsInstants(s, NextTurn(s, at));
    hide InstantsOk, SchedNext, CanSchedule;
  }

  /** The parts of a state that a turn moves on only. */
  ghost predicate Further(s: State, s': State) {
    && s'.max == s.max && s.enlisted <= s'.enlisted && ConsumerStays(s, s')
    && forall k :: AttemptsOf(s, k) <= AttemptsOf(s', k)
  }

  /** What a sweep had in hand is handled, and nobody came back. */
  ghost predicate Finishes(s: State, s': State) {
    && (forall k | k in s'.redis.zset :: k in s.redis.zset)
    && forall k | Waits(s.sched, k) :: Handled(s, s', k)
  }

  lemma FurtherOn(s: State, mid: State, s': State)
    requires Further(s, mid) && Further(mid, s')
    ensures Further(s, s')
  {}

  lemma NoFurther(s: State)
    ensures Further(s, s) && (s.sched.Resting? ==> Finishes(s, s))
  {}

  lemma FinishesOn(s: State, mid: State, s': State)
    requires Further(s, mid) && Further(mid, s') && Finishes(mid, s') && forall k :: MovesKey(s, mid, k)
    ensures Finishes(s, s')
  {
    hide AttemptsOf, InHand, Waits;
    forall k | k in s'.redis.zset ensures k in s.redis.zset {
      assert MovesKey(s, mid, k);
    }
    forall k | Waits(s.sched, k) ensures Handled(s, s', k) {
      assert MovesKey(s, mid, k);
      assert AttemptsOf(s, k) <= AttemptsOf(mid, k) <= AttemptsOf(s', k);
    }
  }

  lemma TurnGoesFurther(s: State, at: int)
    requires Inv(s) && CanSchedule(s, NextTurn(s, at))
    ensures Further(s, Turned(s, at))
  {
    hide Inv, SchedNext, CanSchedule, AttemptsOf, NextTurn;
    SchedulerLeavesConsumer(s, NextTurn(s, at));
    var step := Recovering(NextTurn(s, at));
    assert Enabled(s, step) && Apply(s, step) == Turned(s, at);
    hide Enabled, Apply, Turned;
    forall k ensures Onward(s, Turned(s, at), k) {
      StepIsOnward(s, step, k);
    }
    hide CutOff;
    assert Onward(s, Turned(s, at), Key(0, 0));
    assert forall k :: Onward(s, Turned(s, at), k) ==> AttemptsOf(s, k) <= AttemptsOf(Turned(s, at), k);
  }

  lemma TurnStaysOnSet(s: State, at: int)
    requires Inv(s) && OnSet(s) && !s.sched.Resting? && CanSchedule(s, NextTurn(s, at)) && !NextTurn(s, at).Sweep?
    ensures OnSet(Turned(s, at)) && forall k :: MovesKey(s, Turned(s, at), k)
  {
    hide Inv, InHand, Waits, Handled, Turned, CanSchedule, NotQueued;
    forall k ensures MovesKey(s, Turned(s, at), k) {
      TurnMovesKey(s, at, k);
    }
    forall k | InHand(Turned(s, at).sched, k) ensures k in Turned(s, at).redis.zset {
      assert MovesKey(s, Turned(s, at), k);
    }
    TurnMovesKey(s, at, Key(0, 0));
  }

  /** A sweep under way comes to rest, and each entry in hand has its turn. */
  lemma {:induction false} ComesToRest(w: World, s: State, at: int) returns (ticks: seq<Tick>, s': State)
    requires Inv(s) && OffsetsOk(s) && InstantsOk(s) && at >= 0
    ensures Goes(w, s, at, ticks, s', at) && s'.sched.Resting?
    ensures Inv(s') && OffsetsOk(s') && InstantsOk(s') && Further(s, s')
    ensures OnSet(s) ==> Finishes(s, s')
    decreases WorkLeft(s.sched)
  {
    hide *;
    NoFurther(s);
    if s.sched.Resting? {
      GoesNowhere(w, s, at);
      ticks, s' := [], s;
    } else {
      InvHasParts(s);
      TurnIsPossible(w, s, at);
      TurnIsWork(s, at);
      TurnKeepsInstants(s, at);
      TurnGoesFurther(s, at);
      var t := Tick(at, Recovering(NextTurn(s, at)));
      var mid := Turned(s, at);
      TickKeepsInv(s, t.step);
      if OnSet(s) { TurnStaysOnSet(s, at); }
      var rest;
      rest, s' := ComesToRest(w, mid, at);
      GoesByOne(w, s, at, t, rest, s', at);
      FurtherOn(s, mid, s');
      if OnSet(s) { FinishesOn(s, mid, s'); }
      ticks := [t] + rest;
    }
  }

  // ---------------------------------------------------------------- sweep after sweep

  ghost function {:induction false} Latest(z: map<Key, int>): (latest: int)
    ensures forall k | k in z :: z[k] <= latest
    decreases |z.Keys|
  {
    if z == map[] then 0
    else
      var k :| k in z;
      var rest := map j | j in z && j != k :: z[j];
      assert rest.Keys == z.Keys - {k};
      var latest := Latest(rest);
      assert forall j | j in z && j != k :: z[j] == rest[j] <= latest;
      if z[k] > latest then z[k] else latest
  }

  lemma OrdersTheSet(w: World, z: map<Key, int>)
    requires w.Ok()
    ensures Orders(z.Keys, (a, b) => a in z && b in z && F.Before(z, w.tie, a, b))
  {}

  /** Some time later everything on the set is stale, and the sweep's query answers the first batch of it. */
  lemma SweepIsDue(w: World, z: map<Key, int>, from: int) returns (at: int, members: seq<Key>)
    requires w.Ok() && z != map[] && forall k | k in z :: 0 <= z[k]
    ensures from <= at && IsSwept(w, z, at, members)
    ensures Distinct(members) && members != [] && forall k | k in members :: k in z
  {
    var late := Latest(z) + w.cutoff;
    at := if late < from then from else late;
    hide Latest;
    AllAreStale(z, at - w.cutoff);
    hide F.StaleKeys;
    members := TheFirst(w, z);
    MembersAreSwept(w, z, at, members);
  }

  lemma AllAreStale(z: map<Key, int>, cutoff: int)
    requires forall k | k in z :: 0 <= z[k] <= cutoff
    ensures F.StaleKeys(z, cutoff) == z.Keys
  {}

  predicate InOrder(w: World, z: map<Key, int>, members: seq<Key>) {
    forall i, j | 0 <= i < j < |members| ::
      members[i] in z && members[j] in z && F.Before(z, w.tie, members[i], members[j])
  }

  lemma TheFirst(w: World, z: map<Key, int>) returns (members: seq<Key>)
    requires w.Ok() && z != map[]
    ensures InOrder(w, z, members) && Distinct(members) && members != [] && forall k | k in members :: k in z
    ensures |members| == if |z.Keys| <= w.batchSize then |z.Keys| else w.batchSize
    ensures forall a, b | a in z && b in members && b in z && F.Before(z, w.tie, a, b) :: a in members
  {
    var before := (a, b) => a in z && b in z && F.Before(z, w.tie, a, b);
    OrdersTheSet(w, z);
    var k :| k in z;
    hide F.Before, F.TieBreaks;
    members := FirstOf(z.Keys, before, w.batchSize);
    assert forall a, b | a in z && b in members && b in z && F.Before(z, w.tie, a, b) :: before(a, b);
    assert forall i, j | 0 <= i < j < |members| :: before(members[i], members[j]);
  }

  lemma MembersAreSwept(w: World, z: map<Key, int>, at: int, members: seq<Key>)
    requires F.StaleKeys(z, at - w.cutoff) == z.Keys
    requires InOrder(w, z, members) && Distinct(members) && forall k | k in members :: k in z
    requires |members| == if |z.Keys| <= w.batchSize then |z.Keys| else w.batchSize
    requires forall a, b | a in z && b in members && b in z && F.Before(z, w.tie, a, b) :: a in members
    ensures IsSwept(w, z, at, members)
  {
    DistinctSize(members);
    hide F.StaleKeys, F.Before;
  }

  lemma {:induction false} DistinctSize(xs: seq<Key>)
    requires Distinct(xs)
    ensures |set k | k in xs| == |xs|
  {
    if xs != [] {
      var n := |xs| - 1;
      DistinctSize(xs[..n]);
      assert (set k | k in xs) == (set k | k in xs[..n]) + {xs[n]};
    } else {
      assert (set k | k in xs) == {};
    }
  }

  /** How many turns the key may still need. */
  function TurnsLeft(s: State, k: Key): nat {
    if k in s.redis.zset && AttemptsOf(s, k) <= s.max then 1 + s.max - AttemptsOf(s, k) else 0
  }

  function AllTurnsLeft(s: State, ks: seq<Key>): nat {
    if ks == [] then 0 else TurnsLeft(s, ks[0]) + AllTurnsLeft(s, ks[1..])
  }

  lemma {:induction false} FewerTurnsLeft(s: State, s': State, ks: seq<Key>, k: Key)
    requires Inv(s) && Further(s, s') && (forall j | j in s'.redis.zset :: j in s.redis.zset)
    ensures AllTurnsLeft(s', ks) <= AllTurnsLeft(s, ks)
    ensures k in ks && k in s.redis.zset && Handled(s, s', k) ==> AllTurnsLeft(s', ks) < AllTurnsLeft(s, ks)
  {
    if ks != [] {
      FewerTurnsLeft(s, s', ks[1..], k);
      AttemptsAreBounded(s, ks[0]);
      hide Inv, AttemptsOf, ConsumerStays;
      assert AttemptsOf(s, ks[0]) <= AttemptsOf(s', ks[0]);
    }
  }

  lemma AttemptsAreBounded(s: State, k: Key)
    requires Inv(s)
    ensures AttemptsOf(s, k) <= s.max
  {}

  lemma SweepStarts(w: World, s: State, at: int, members: seq<Key>)
    requires s.sched.Resting? && InstantsOk(s) && Distinct(members) && members != []
    requires forall k | k in members :: k in s.redis.zset
    requires IsSwept(w, s.redis.zset, at, members)
    ensures var t := Tick(at, Recovering(Sweep(members))); var s' := s.(sched := Fetching(members, []));
            && Enabled(s, t.step) && CalmTick(w, s, t) && Apply(s, t.step) == s'
            && OnSet(s') && InstantsOk(s') && Waits(s'.sched, members[0]) && Further(s, s')
            && s'.redis == s.redis
  {
    hide IsSwept;
  }

  /** One sweep over the batch that is due. */
  lemma OneSweep(w: World, s: State, from: int, ks: seq<Key>) returns (ticks: seq<Tick>, s': State, to: int)
    requires w.Ok() && Inv(s) && OffsetsOk(s) && InstantsOk(s) && from >= 0 && s.sched.Resting?
    requires s.redis.zset != map[] && forall k | k in s.redis.zset :: k in ks
    ensures Goes(w, s, from, ticks, s', to) && s'.sched.Resting? && from <= to
    ensures Inv(s') && OffsetsOk(s') && InstantsOk(s') && Further(s, s')
    ensures (forall k | k in s'.redis.zset :: k in s.redis.zset) && AllTurnsLeft(s', ks) < AllTurnsLeft(s, ks)
  {
    var members;
    assert forall k | k in s.redis.zset :: 0 <= s.redis.zset[k];
    hide *;
    to, members := SweepIsDue(w, s.redis.zset, from);
    SweepStarts(w, s, to, members);
    var t := Tick(to, Recovering(Sweep(members)));
    var mid := s.(sched := Fetching(members, []));
    TickKeepsInv(s, t.step);
    var rest;
    rest, s' := ComesToRest(w, mid, to);
    GoesByOne(w, s, from, t, rest, s', to);
    ticks := [t] + rest;
    FurtherOn(s, mid, s');
    SweptIsHandled(s, mid, s', members[0]);
    FewerTurnsLeft(s, s', ks, members[0]);
  }

  lemma SweptIsHandled(s: State, mid: State, s': State, k: Key)
    requires mid.redis == s.redis && Finishes(mid, s') && Waits(mid.sched, k)
    ensures Handled(s, s', k) && forall j | j in s'.redis.zset :: j in s.redis.zset
  {}

  /** Sweep after sweep the set empties: every entry gets an outcome, at the latest by a give-up. */
  lemma {:induction false} SweepsEmptyTheSet(w: World, s: State, from: int, ks: seq<Key>)
      returns (ticks: seq<Tick>, s': State, to: int)
    requires w.Ok() && Inv(s) && OffsetsOk(s) && InstantsOk(s) && from >= 0 && s.sched.Resting?
    requires forall k | k in s.redis.zset :: k in ks
    ensures Goes(w, s, from, ticks, s', to) && AtRest(s') && from <= to
    ensures Inv(s') && OffsetsOk(s') && InstantsOk(s') && Further(s, s')
    decreases AllTurnsLeft(s, ks)
  {
    hide *;
    if s.redis.zset == map[] {
      GoesNowhere(w, s, from);
      NoFurther(s);
      RestsNow(s);
      ticks, s', to := [], s, from;
    } else {
      var first, mid, at := OneSweep(w, s, from, ks);
      var rest;
      rest, s', to := SweepsEmptyTheSet(w, mid, at, ks);
      GoesOn(w, s, from, first, mid, at, rest, s', to);
      FurtherOn(s, mid, s');
      ticks := first + rest;
    }
  }

  lemma RestsNow(s: State)
    requires s.sched.Resting? && s.redis.zset == map[]
    ensures AtRest(s)
  {}

  lemma {:induction false} Listed(all: set<Key>) returns (ks: seq<Key>)
    ensures forall k | k in all :: k in ks
    decreases |all|
  {
    if all == {} {
      ks := [];
    } else {
      var k :| k in all;
      var rest := Listed(all - {k});
      ks := [k] + rest;
    }
  }

  /** From any state the scheduler alone brings every accepted application to an outcome. */
  lemma SchedulerFinishes(w: World, s: State, from: int) returns (ticks: seq<Tick>, s': State, to: int)
    requires w.Ok() && Inv(s) && OffsetsOk(s) && InstantsOk(s) && from >= 0
    ensures Goes(w, s, from, ticks, s', to) && AtRest(s') && from <= to
    ensures Inv(s') && OffsetsOk(s') && Further(s, s')
  {
    hide *;
    var first, mid := ComesToRest(w, s, from);
    var ks := Listed(mid.redis.zset.Keys);
    var rest;
    rest, s', to := SweepsEmptyTheSet(w, mid, from, ks);
    GoesOn(w, s, from, first, mid, from, rest, s', to);
    FurtherOn(s, mid, s');
    ticks := first + rest;
  }
}
