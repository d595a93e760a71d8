/**
 * Runs in which nothing fails: the clock goes on, sweeps and polls read the batches the queries
 * give them, sends succeed, records are taken in order, and nobody crashes or gives up a try.
 */
module Calm {
  import opened Basics
  import opened Payloads
  import opened CouponDb
  import opened Redis
  import opened System
  import opened SystemProofs
  import F = Fairness
  import O = OutboxFairness

  /** The settings, and what the queries order by: members of equal score, and the creation of outbox rows. */
  datatype World = World(tie: Key -> int, batchSize: nat, cutoff: nat, created: nat -> int, limit: nat) {
    ghost predicate Ok() {
      F.TieBreaks(tie) && batchSize > 0 && limit > 0
    }
  }

  /** A step at an instant. */
  datatype Tick = Tick(at: int, step: Step)

  /** The members a sweep at this instant reads: the oldest stale ones, in order. */
  ghost predicate IsSwept(w: World, z: map<Key, int>, at: int, members: seq<Key>) {
    && F.IsBatch(z, w.tie, at - w.cutoff, w.batchSize, set k | k in members)
    && forall i, j | 0 <= i < j < |members| ::
         members[i] in z && members[j] in z && F.Before(z, w.tie, members[i], members[j])
  }

  ghost predicate CalmTick(w: World, s: State, t: Tick) {
    match t.step
    case Server(Issuing(_, st)) => !st.Abort? && !st.CommitThenCrash? && !st.SkipPost?
    case Server(Redeeming(_, st)) => !st.CallAbort?
    case Server(Relaying(st)) =>
      && !st.PollCrash? && (st.PollSend? ==> st.outcome.Sent?)
      && (st.PollStart? ==> O.OldestFirst(s.c.db.outbox, w.created, w.limit, st.ids))
    case Accepting(id, st) =>
      && !st.AcceptFails? && (st.Claim? ==> st.now == t.at)
      && (st.Publish? && id in s.accepts && ValidRequest(AcceptPayload(s.accepts[id])) ==> st.ok)
    case Consuming(j, st) =>
      && !st.MarkRetry? && !st.MarkFails? && !st.TakenBack?
      && (st.Deliver? ==> forall i | 0 <= i < j :: i in s.resolved)
    case Recovering(st) =>
      && !st.ItemFails? && !st.SchedCrashes?
      && (st.Sweep? ==> IsSwept(w, s.redis.zset, t.at, st.members))
      && (st.Visit? ==> st.now == t.at)
      && (st.RepublishNext? && s.sched.Republishing? && ValidRequest(RebuiltPayload(s.sched.p)) ==> st.ok)
    case LateSend(_) => true
  }

  function StepsOf(ticks: seq<Tick>): seq<Step> {
    if ticks == [] then [] else [ticks[0].step] + StepsOf(ticks[1..])
  }

  /** ticks go from s at from to s' at to. */
  ghost predicate Leads(w: World, s: State, from: int, ticks: seq<Tick>, s': State, to: int)
    decreases ticks
  {
    if ticks == [] then s == s' && from <= to
    else
      && from <= ticks[0].at && Enabled(s, ticks[0].step) && CalmTick(w, s, ticks[0])
      && Leads(w, Apply(s, ticks[0].step), ticks[0].at, ticks[1..], s', to)
  }

  /** It is a run of the machine. */
  lemma {:induction false} LeadsIsARun(w: World, s: State, from: int, ticks: seq<Tick>, s': State, to: int)
    requires Leads(w, s, from, ticks, s', to)
    ensures Runs(s, StepsOf(ticks)) && After(s, StepsOf(ticks)) == s' && from <= to
    decreases ticks
  {
    hide Enabled, Apply, CalmTick;
    if ticks != [] {
      LeadsIsARun(w, Apply(s, ticks[0].step), ticks[0].at, ticks[1..], s', to);
      assert StepsOf(ticks)[1..] == StepsOf(ticks[1..]);
    } else {
      NoSteps(s);
    }
  }
}
