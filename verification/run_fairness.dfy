/**
 * The fairness bound for the whole system: accepts, results, server-c and the sweep's own commands
 * run interleaved from one sweep to the next, and sweeps may fail entries or be cut off.
 */
module RunFairness {
  import opened Basics
  import opened Payloads
  import opened CouponDb
  import opened Redis
  import opened System
  import opened SystemProofs
  import opened Fairness

  /** A sweep still has to take the key off the set or score it again. */
  ghost predicate InHand(sched: Scheduler, k: Key) {
    match sched
    case Resting => false
    case Fetching(todo, got) => k in todo || !NotQueued(got, k)
    case Working(queue) => !NotQueued(queue, k)
    case Marking(m, _, queue) => m.key == k || !NotQueued(queue, k)
    case Republishing(p, _, pc, queue) => (p.key == k && !pc.Resending?) || !NotQueued(queue, k)
  }

  /** The step abandons the key: its lookup or one of its commands throws, or the process dies. */
  ghost predicate Drops(s: State, step: Step, k: Key) {
    && step.Recovering? && InHand(s.sched, k)
    && match step.sched {
         case ItemFails =>
           match s.sched {
             case Working(queue) => queue != [] && queue[0].key == k
             case Marking(m, _, _) => m.key == k
             case Republishing(p, _, _, _) => p.key == k
             case _ => false
           }
         case SchedCrashes => true
         case _ => false
       }
  }

  /** The clock has gone past score whenever an entry is given its place in the set. */
  predicate OnTime(s: State, step: Step, score: int) {
    match step
    case Accepting(id, Enlist) => id in s.accepts ==> s.accepts[id].now > score
    case Recovering(RepublishNext(_)) => s.sched.Republishing? && s.sched.pc.Rescoring? ==> s.sched.at > score
    case _ => true
  }

  /** Any steps but the start of another sweep; only keys of failing are abandoned. */
  ghost predicate Between(s: State, steps: seq<Step>, score: int, failing: set<Key>)
    decreases steps
  {
    steps == [] ||
    (&& Enabled(s, steps[0]) && !(steps[0].Recovering? && steps[0].sched.Sweep?) && OnTime(s, steps[0], score)
     && (forall k | Drops(s, steps[0], k) :: k in failing)
     && Between(Apply(s, steps[0]), steps[1..], score, failing))
  }

  /** From the start of one sweep to the start of the next. */
  datatype Stretch = Stretch(members: seq<Key>, cutoff: int, steps: seq<Step>) {
    function Batch(): set<Key> {
      set k | k in members
    }
  }

  function Begun(s: State, sweep: Stretch): State {
    s.(sched := Fetching(sweep.members, []))
  }

  ghost predicate SweepRound(s: State, sweep: Stretch, s': State, tie: Key -> int, batchSize: nat,
                             failing: set<Key>, e: Key)
  {
    && e in s.redis.zset && 0 <= s.redis.zset[e] <= sweep.cutoff && (forall k | k in s.redis.zset :: 0 <= s.redis.zset[k])
    && Enabled(s, Recovering(Sweep(sweep.members)))
    && IsBatch(s.redis.zset, tie, sweep.cutoff, batchSize, sweep.Batch())
    && Between(Begun(s, sweep), sweep.steps, s.redis.zset[e], failing)
    && Runs(Begun(s, sweep), sweep.steps) && s' == After(Begun(s, sweep), sweep.steps) && s'.sched.Resting?
  }

  // ---------------------------------------------------------------- one step

  /** What happened to an entry: it is where it was, or behind score. */
  predicate SameOrBehind(z: map<Key, int>, z': map<Key, int>, k: Key, score: int) {
    k in z' ==> (k in z && z'[k] == z[k]) || z'[k] > score
  }

  predicate Behind(z: map<Key, int>, k: Key, score: int) {
    k in z ==> z[k] > score
  }

  lemma MarkOnlyTakesOff(r: Redis, m: Mark)
    ensures forall k | k in MarkCommand(r, m).zset :: k in r.zset && MarkCommand(r, m).zset[k] == r.zset[k]
  {}

  lemma SchedScores(s: State, step: SchedStep, e: Key, score: int)
    requires CanSchedule(s, step) && OnTime(s, Recovering(step), score) && !InHand(s.sched, e)
    ensures forall k | k in SchedNext(s, step).redis.zset ::
              SameOrBehind(s.redis.zset, SchedNext(s, step).redis.zset, k, score)
    ensures e in SchedNext(s, step).redis.zset ==>
              e in s.redis.zset && SchedNext(s, step).redis.zset[e] == s.redis.zset[e]
  {
    hide NotQueued, HasKey, ReadPending, MarkCommand;
    if step.SchedMarkNext? { MarkOnlyTakesOff(s.redis, s.sched.mark); }
  }

  lemma AcceptScores(s: State, id: nat, step: AcceptStep, e: Key, score: int)
    requires CanAccept(s, id, step) && OnTime(s, Accepting(id, step), score)
    requires AcceptsOk(s.redis, s.enlisted, s.accepts) && e in s.enlisted
    ensures AcceptNext(s, id, step).sched == s.sched
    ensures forall k | k in AcceptNext(s, id, step).redis.zset ::
              SameOrBehind(s.redis.zset, AcceptNext(s, id, step).redis.zset, k, score)
    ensures e in AcceptNext(s, id, step).redis.zset ==>
              e in s.redis.zset && AcceptNext(s, id, step).redis.zset[e] == s.redis.zset[e]
  {
    hide ValidRequest, Filled, MatchesHash;
  }

  lemma MarkingScores(s: State, id: nat, step: MarkStep)
    requires CanMark(s, id, step)
    ensures var s' := MarkingNext(s, id, step);
            s'.sched == s.sched && forall k | k in s'.redis.zset :: k in s.redis.zset && s'.redis.zset[k] == s.redis.zset[k]
  {
    hide MarkCommand, ValidResult;
    if step.MarkNext? { MarkOnlyTakesOff(s.redis, s.marks[id]); }
  }

  lemma InvHasParts(s: State)
    requires Inv(s)
    ensures AcceptsOk(s.redis, s.enlisted, s.accepts) && EnlistedOk(s.redis, s.enlisted)
    ensures SchedOk(s.c.db.coupons, s.max, s.redis, s.enlisted, s.sched)
  {}

  /** No step moves an entry forward, and none moves e while no sweep has it in hand. */
  lemma ScoresMove(s: State, step: Step, e: Key, score: int)
    requires Inv(s) && Enabled(s, step) && OnTime(s, step, score) && !InHand(s.sched, e) && e in s.enlisted
    ensures var z, z' := s.redis.zset, Apply(s, step).redis.zset;
            && (forall k | k in z' :: SameOrBehind(z, z', k, score))
            && (e in z' ==> e in z && z'[e] == z[e])
  {
    InvHasParts(s);
    hide Inv, OnTime, AcceptsOk, EnlistedOk, SchedOk, InHand;
    hide CanSchedule, CanAccept, CanMark, SchedNext, AcceptNext, MarkingNext;
    match step
    case Server(_) =>
    case Accepting(id, st) => AcceptScores(s, id, st, e, score);
    case Consuming(id, st) => MarkingScores(s, id, st);
    case Recovering(st) => SchedScores(s, st, e, score);
    case LateSend(_) =>
  }

  lemma OneFewer(queue: seq<PendingIssue>, k: Key)
    requires queue != []
    ensures !NotQueued(queue, k) <==> queue[0].key == k || !NotQueued(queue[1..], k)
  {
    if !NotQueued(queue, k) && queue[0].key != k {
      var i :| 0 <= i < |queue| && queue[i].key == k;
      assert queue[1..][i - 1].key == k;
    }
    if !NotQueued(queue[1..], k) {
      var i :| 0 <= i < |queue[1..]| && queue[1..][i].key == k;
      assert queue[i + 1].key == k;
    }
  }

  lemma OneRead(got: seq<PendingIssue>, p: PendingIssue, k: Key)
    ensures !NotQueued(got + [p], k) <==> p.key == k || !NotQueued(got, k)
  {
    if !NotQueued(got, k) {
      var i :| 0 <= i < |got| && got[i].key == k;
      assert (got + [p])[i].key == k;
    }
    assert (got + [p])[|got|].key == p.key;
  }

  lemma BackInHand(queue: seq<PendingIssue>, k: Key)
    ensures InHand(Back(queue), k) <==> !NotQueued(queue, k)
  {}

  /** What a step of the scheduler may do with the keys in hand. */
  ghost predicate Lets(s: State, step: SchedStep, s': State, k: Key, score: int) {
    && (InHand(s'.sched, k) ==> InHand(s.sched, k))
    && (InHand(s.sched, k) && !InHand(s'.sched, k) && !Drops(s, Recovering(step), k) ==> Behind(s'.redis.zset, k, score))
  }

  lemma FetchLets(s: State, k: Key, score: int)
    requires s.sched.Fetching? && EnlistedOk(s.redis, s.enlisted)
    requires SchedOk(s.c.db.coupons, s.max, s.redis, s.enlisted, s.sched)
    ensures Lets(s, FetchOne, FetchNext(s), k, score)
  {
    var todo, got := s.sched.todo, s.sched.got;
    BackInHand(got, k);
    if todo != [] {
      assert todo[0] in s.enlisted && Filled(s.redis, todo[0]);
      var p := ReadPending(todo[0], s.redis.hashes[todo[0]]).value;
      assert ReadPending(todo[0], s.redis.hashes[todo[0]]).Some? && p.key == todo[0];
      OneRead(got, p, k);
      assert k in todo <==> k == todo[0] || k in todo[1..];
    }
    hide NotQueued, QueueOk, Filled, ReadPending, Back;
  }

  lemma VisitLets(s: State, row: Option<nat>, now: int, k: Key, score: int)
    requires CanSchedule(s, Visit(row, now))
    ensures Lets(s, Visit(row, now), SchedNext(s, Visit(row, now)), k, score)
  {
    OneFewer(s.sched.queue, k);
    hide NotQueued, HasKey;
  }

  lemma MarkLets(s: State, k: Key, score: int)
    requires s.sched.Marking?
    ensures Lets(s, SchedMarkNext, SchedNext(s, SchedMarkNext), k, score)
  {
    BackInHand(s.sched.queue, k);
    hide NotQueued, Back, HsetStatus, HsetCode;
  }

  lemma RepublishLets(s: State, ok: bool, k: Key, score: int)
    requires CanSchedule(s, RepublishNext(ok)) && OnTime(s, Recovering(RepublishNext(ok)), score)
    ensures Lets(s, RepublishNext(ok), SchedNext(s, RepublishNext(ok)), k, score)
  {
    BackInHand(s.sched.queue, k);
    hide NotQueued, Back, HincrAttempts, HsetLastPublished, ValidRequest, RebuiltPayload;
  }

  lemma FailureLets(s: State, k: Key, score: int)
    requires CanSchedule(s, ItemFails)
    ensures Lets(s, ItemFails, SchedNext(s, ItemFails), k, score)
  {
    BackInHand(s.sched.queue, k);
    if s.sched.Working? {
      OneFewer(s.sched.queue, k);
      BackInHand(s.sched.queue[1..], k);
    }
    hide NotQueued, Back;
  }

  /** A key leaves the scheduler's hands abandoned, off the set, or scored behind. */
  lemma HandsMove(s: State, step: SchedStep, k: Key, score: int)
    requires Inv(s) && CanSchedule(s, step) && OnTime(s, Recovering(step), score) && !step.Sweep?
    ensures Lets(s, step, SchedNext(s, step), k, score)
  {
    InvHasParts(s);
    hide Inv, SchedOk, EnlistedOk, AcceptsOk, Lets;
    match step
    case FetchOne => FetchLets(s, k, score);
    case Visit(row, now) => VisitLets(s, row, now, k, score);
    case SchedMarkNext => MarkLets(s, k, score);
    case RepublishNext(ok) => RepublishLets(s, ok, k, score);
    case ItemFails => FailureLets(s, k, score);
    case SchedCrashes => CrashLets(s, k, score);
  }

  lemma CrashLets(s: State, k: Key, score: int)
    ensures Lets(s, SchedCrashes, SchedNext(s, SchedCrashes), k, score)
  {}

  // ---------------------------------------------------------------- from sweep to sweep

  /** Where the entries are while a sweep over members, begun at z, is under way. */
  ghost predicate MidSweep(z: map<Key, int>, s: State, members: seq<Key>, failing: set<Key>, e: Key)
    requires e in z
  {
    && e in s.enlisted && e !in members
    && (e in s.redis.zset ==> s.redis.zset[e] == z[e])
    && (forall k | InHand(s.sched, k) :: k in members)
    && forall k | k in s.redis.zset && k != e :: InItsPlace(z, s, members, failing, z[e], k)
  }

  ghost predicate InItsPlace(z: map<Key, int>, s: State, members: seq<Key>, failing: set<Key>, score: int, k: Key)
    requires k in s.redis.zset
  {
    || s.redis.zset[k] > score
    || (k in z && s.redis.zset[k] == z[k] && (k in members ==> k in failing || InHand(s.sched, k)))
  }

  lemma OtherStepsLeaveTheSweep(s: State, step: Step)
    requires Inv(s) && Enabled(s, step) && !step.Recovering?
    ensures Apply(s, step).sched == s.sched
  {
    hide Inv;
    match step
    case Server(_) =>
    case Accepting(id, st) =>
    case Consuming(id, st) =>
    case LateSend(_) =>
  }

  lemma StepLets(s: State, step: Step, k: Key, score: int)
    requires Inv(s) && Enabled(s, step) && OnTime(s, step, score) && !(step.Recovering? && step.sched.Sweep?)
    ensures InHand(Apply(s, step).sched, k) ==> InHand(s.sched, k)
    ensures InHand(s.sched, k) && !InHand(Apply(s, step).sched, k) && !Drops(s, step, k) ==>
              Behind(Apply(s, step).redis.zset, k, score)
  {
    if step.Recovering? {
      HandsMove(s, step.sched, k, score);
    } else {
      OtherStepsLeaveTheSweep(s, step);
    }
    hide Inv, OnTime, InHand, CanSchedule, CanAccept, CanMark, SchedNext, AcceptNext, MarkingNext, Drops;
  }

  lemma EnlistedStays(s: State, step: Step)
    requires Enabled(s, step)
    ensures s.enlisted <= Apply(s, step).enlisted
  {
    hide ValidRequest, MarkCommand, HasKey, ReadPending, C.Enabled, C.Apply;
  }

  lemma StepStaysMidSweep(z: map<Key, int>, s: State, step: Step, members: seq<Key>, failing: set<Key>, e: Key)
    requires Inv(s) && Enabled(s, step) && e in z && MidSweep(z, s, members, failing, e)
    requires OnTime(s, step, z[e]) && !(step.Recovering? && step.sched.Sweep?)
    requires forall k | Drops(s, step, k) :: k in failing
    ensures MidSweep(z, Apply(s, step), members, failing, e)
  {
    hide Inv, Enabled, Apply, OnTime, Drops, InHand;
    var s' := Apply(s, step);
    EnlistedStays(s, step);
    ScoresMove(s, step, e, z[e]);
    forall k ensures InHand(s'.sched, k) ==> k in members {
      StepLets(s, step, k, z[e]);
    }
    forall k | k in s'.redis.zset && k != e ensures InItsPlace(z, s', members, failing, z[e], k) {
      StepLets(s, step, k, z[e]);
      assert SameOrBehind(s.redis.zset, s'.redis.zset, k, z[e]);
    }
  }

  lemma {:induction false} RunStaysMidSweep(z: map<Key, int>, s: State, steps: seq<Step>, members: seq<Key>,
                                            failing: set<Key>, e: Key)
    requires Inv(s) && e in z && MidSweep(z, s, members, failing, e)
    requires Runs(s, steps) && Between(s, steps, z[e], failing)
    ensures MidSweep(z, After(s, steps), members, failing, e)
    decreases steps
  {
    hide Inv, Enabled, Apply, OnTime, Drops, InHand, MidSweep;
    if steps != [] {
      StepStaysMidSweep(z, s, steps[0], members, failing, e);
      StepKeepsInv(s, steps[0]);
      RunStaysMidSweep(z, Apply(s, steps[0]), steps[1..], members, failing, e);
    }
  }

  lemma SweepBegins(s: State, sweep: Stretch, failing: set<Key>, e: Key)
    requires Inv(s) && Enabled(s, Recovering(Sweep(sweep.members))) && e in s.redis.zset && e !in sweep.members
    ensures Apply(s, Recovering(Sweep(sweep.members))) == Begun(s, sweep)
    ensures MidSweep(s.redis.zset, Begun(s, sweep), sweep.members, failing, e)
  {
    InvHasParts(s);
    hide Inv, AcceptsOk, SchedOk, HasKey;
  }

  /** From one sweep to the next, whatever runs in between, is a round. */
  lemma SweepWithOthersIsARound(s: State, sweep: Stretch, s': State, tie: Key -> int, batchSize: nat,
                                failing: set<Key>, e: Key)
    requires Inv(s) && SweepRound(s, sweep, s', tie, batchSize, failing, e) && e !in sweep.members
    ensures Inv(s')
    ensures Round(s.redis.zset, s'.redis.zset, sweep.Batch(), sweep.cutoff, tie, batchSize, failing, e)
  {
    hide Inv, Enabled, Apply, Between, Runs, After, MidSweep;
    SweepBegins(s, sweep, failing, e);
    StepKeepsInv(s, Recovering(Sweep(sweep.members)));
    RunKeepsInv(Begun(s, sweep), sweep.steps);
    RunStaysMidSweep(s.redis.zset, Begun(s, sweep), sweep.steps, sweep.members, failing, e);
    EndOfSweep(s.redis.zset, s', sweep, failing, e);
  }

  lemma EndOfSweep(z: map<Key, int>, s: State, sweep: Stretch, failing: set<Key>, e: Key)
    requires e in z && MidSweep(z, s, sweep.members, failing, e) && s.sched.Resting?
    ensures Moves(z, s.redis.zset, sweep.Batch() - failing, e)
  {}

  /** Consecutive sweeps, each from the state the one before led to, that all pass e over. */
  ghost predicate Passed(states: seq<State>, sweeps: seq<Stretch>, tie: Key -> int, batchSize: nat,
                         failing: set<Key>, e: Key)
  {
    && |states| == |sweeps| + 1 && Inv(states[0]) && e in states[|sweeps|].redis.zset
    && (forall i | 0 <= i < |sweeps| :: SweepRound(states[i], sweeps[i], states[i + 1], tie, batchSize, failing, e))
    && forall i | 0 <= i < |sweeps| :: e !in sweeps[i].members
  }

  lemma {:induction false} InvAtEverySweep(states: seq<State>, sweeps: seq<Stretch>, tie: Key -> int, batchSize: nat,
                                           failing: set<Key>, e: Key, n: nat)
    requires Passed(states, sweeps, tie, batchSize, failing, e) && n <= |sweeps|
    ensures Inv(states[n])
  {
    hide Inv, SweepRound;
    if n > 0 {
      InvAtEverySweep(states, sweeps, tie, batchSize, failing, e, n - 1);
      assert SweepRound(states[n - 1], sweeps[n - 1], states[n - 1 + 1], tie, batchSize, failing, e);
      SweepWithOthersIsARound(states[n - 1], sweeps[n - 1], states[n], tie, batchSize, failing, e);
    }
  }

  lemma WaitsInTheSet(states: seq<State>, sweeps: seq<Stretch>, tie: Key -> int, batchSize: nat,
                      failing: set<Key>, e: Key, n: nat)
    requires Passed(states, sweeps, tie, batchSize, failing, e) && n <= |sweeps|
    ensures e in states[n].redis.zset
  {
    if n < |sweeps| {
      assert SweepRound(states[n], sweeps[n], states[n + 1], tie, batchSize, failing, e);
    }
  }

  /**
   * In any run of the whole system: with r entries ahead of it, f of which are abandoned again and
   * again, an entry is missed by at most (r - f) / (batchSize - f) sweeps in a row.
   */
  lemma EverySweptEntryIsReached(states: seq<State>, sweeps: seq<Stretch>, tie: Key -> int, batchSize: nat,
                                 failing: set<Key>, e: Key)
    requires TieBreaks(tie) && Passed(states, sweeps, tie, batchSize, failing, e) && e in states[0].redis.zset
    requires |Ahead(states[0].redis.zset, tie, e) * failing| < batchSize
    ensures var ahead := Ahead(states[0].redis.zset, tie, e);
            && |sweeps| <= (|ahead| - |ahead * failing|) / (batchSize - |ahead * failing|)
            && (ahead * failing == {} ==> |sweeps| <= |ahead| / batchSize)
  {
    hide Inv, SweepRound, Round, Ahead, TieBreaks;
    var zs := seq(|states|, i requires 0 <= i < |states| => states[i].redis.zset);
    var batches := seq(|sweeps|, i requires 0 <= i < |sweeps| => sweeps[i].Batch());
    var cutoffs := seq(|sweeps|, i requires 0 <= i < |sweeps| => sweeps[i].cutoff);
    forall i | 0 <= i < |zs| ensures e in zs[i] {
      WaitsInTheSet(states, sweeps, tie, batchSize, failing, e, i);
    }
    forall i | 0 <= i < |batches|
      ensures Round(zs[i], zs[i + 1], batches[i], cutoffs[i], tie, batchSize, failing, e)
    {
      InvAtEverySweep(states, sweeps, tie, batchSize, failing, e, i);
      SweepWithOthersIsARound(states[i], sweeps[i], states[i + 1], tie, batchSize, failing, e);
    }
    EveryStaleEntryIsReached(zs, batches, cutoffs, tie, batchSize, failing, e);
  }
}
