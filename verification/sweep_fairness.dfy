/**
 * The sweeps of PendingIssueScheduler are rounds in the sense of Fairness: what a sweep handles is
 * gone from the set or scored behind, so the fairness bound holds of the code's own sweeps.
 */
module SweepFairness {
  import opened Basics
  import opened Payloads
  import opened CouponDb
  import opened Redis
  import opened Recovery
  import opened PendingStore
  import opened Fairness
  import C = ServerC

  predicate DistinctKeys(ps: seq<PendingIssue>) {
    forall i, j | 0 <= i < j < |ps| :: ps[i].key != ps[j].key
  }

  predicate SameEntry(r: Redis, r': Redis, k: Key) {
    && HashOf(r, k) == HashOf(r', k)
    && (k in r.zset <==> k in r'.zset) && (k in r.zset ==> r.zset[k] == r'.zset[k])
  }

  lemma TurnTouchesOneEntry(r: Redis, max: int, p: PendingIssue, t: Turn, k: Key)
    requires k != p.key
    ensures SameEntry(r, AfterTurn(r, max, p, t), k)
  {}

  lemma StatusLooks(r: Redis, r2: Redis, k: Key, status: PendingStatus)
    requires SameEntry(r, r2, k)
    ensures SameEntry(HsetStatus(r, k, status), HsetStatus(r2, k, status), k)
  {}

  lemma CodeLooks(r: Redis, r2: Redis, k: Key, code: string)
    requires SameEntry(r, r2, k)
    ensures SameEntry(HsetCode(r, k, code), HsetCode(r2, k, code), k)
  {}

  lemma RemovalLooks(r: Redis, r2: Redis, k: Key)
    requires SameEntry(r, r2, k)
    ensures SameEntry(Zrem(r, k), Zrem(r2, k), k)
  {}

  lemma MarkLooksAtOneEntry(r: Redis, r2: Redis, k: Key, status: PendingStatus, code: Option<string>, cut: nat)
    requires SameEntry(r, r2, k)
    ensures SameEntry(MarkedUpTo(r, k, status, code, cut), MarkedUpTo(r2, k, status, code, cut), k)
  {
    hide SameEntry, HsetStatus, HsetCode, Zrem;
    var a, b := HsetStatus(r, k, status), HsetStatus(r2, k, status);
    StatusLooks(r, r2, k, status);
    RemovalLooks(a, b, k);
    if code.Some? {
      CodeLooks(a, b, k, code.value);
      RemovalLooks(HsetCode(a, k, code.value), HsetCode(b, k, code.value), k);
    }
  }

  lemma RepublishLooksAtOneEntry(r: Redis, r2: Redis, k: Key, at: int, cut: nat)
    requires SameEntry(r, r2, k)
    ensures SameEntry(RepublishedUpTo(r, k, at, cut), RepublishedUpTo(r2, k, at, cut), k)
  {}

  lemma TurnLooksAtOneEntry(r: Redis, r2: Redis, max: int, p: PendingIssue, t: Turn)
    requires SameEntry(r, r2, p.key)
    ensures SameEntry(AfterTurn(r, max, p, t), AfterTurn(r2, max, p, t), p.key)
  {
    hide SameEntry, MarkedUpTo, RepublishedUpTo;
    match t.lookup
    case LookupThrows =>
    case Knows(row) => MarkLooksAtOneEntry(r, r2, p.key, MapRowStatus(row.status), Some(row.code), t.cut);
    case KnowsNothing =>
      RepublishLooksAtOneEntry(r, r2, p.key, t.at, t.cut);
      MarkLooksAtOneEntry(r, r2, p.key, FAILED, None, t.cut);
  }

  lemma {:induction false} OthersAreUntouched(r: Redis, max: int, ps: seq<PendingIssue>, turn: Key -> Turn, k: Key)
    requires forall i | 0 <= i < |ps| :: ps[i].key != k
    ensures SameEntry(r, AfterTurns(r, max, ps, turn), k)
  {
    if ps != [] {
      var n := |ps| - 1;
      OthersAreUntouched(r, max, ps[..n], turn, k);
      TurnTouchesOneEntry(AfterTurns(r, max, ps[..n], turn), max, ps[n], turn(ps[n].key), k);
    }
  }

  /** Entries do not disturb each other: a sweep does to each what its own turn alone would do. */
  lemma {:induction false} EachEntryGetsItsOwnTurn(r: Redis, max: int, ps: seq<PendingIssue>, turn: Key -> Turn, i: nat)
    requires DistinctKeys(ps) && i < |ps|
    ensures SameEntry(AfterTurns(r, max, ps, turn), AfterTurn(r, max, ps[i], turn(ps[i].key)), ps[i].key)
  {
    var n := |ps| - 1;
    var before := AfterTurns(r, max, ps[..n], turn);
    if i == n {
      OthersAreUntouched(r, max, ps[..n], turn, ps[n].key);
      TurnLooksAtOneEntry(before, r, max, ps[n], turn(ps[n].key));
    } else {
      EachEntryGetsItsOwnTurn(r, max, ps[..n], turn, i);
      TurnTouchesOneEntry(before, max, ps[n], turn(ps[n].key), ps[i].key);
    }
  }

  /** The status a row's word becomes. */
  predicate SaysTheRow(status: Option<PendingStatus>, row: Coupon) {
    && (row.status == Success || row.status == Used ==> status == Some(SUCCESS))
    && (row.status == SoldOut ==> status == Some(SOLD_OUT))
    && (row.status == Failed ==> status == Some(FAILED))
  }

  /** Command by command: what a turn leaves in Redis. */
  lemma WhatATurnLeaves(r: Redis, max: int, p: PendingIssue, t: Turn)
    ensures var r' := AfterTurn(r, max, p, t); var h, h' := HashOf(r, p.key), HashOf(r', p.key);
            && (t.lookup.LookupThrows? || t.cut == 0 ==> r' == r)
            && (t.lookup.Knows? && t.cut >= 1 ==>
                  && SaysTheRow(h'.status, t.lookup.row) && h' == h.(status := h'.status, code := h'.code)
                  && h'.code == (if t.cut >= 2 then Some(t.lookup.row.code) else h.code))
            && (t.lookup.KnowsNothing? && p.attempts < max && t.cut >= 1 ==>
                  h' == h.(attempts := Some(if h.attempts.Some? then h.attempts.value + 1 else 1),
                           lastPublishedAt := if t.cut >= 2 then Some(t.at) else h.lastPublishedAt))
            && (t.lookup.KnowsNothing? && p.attempts >= max && t.cut >= 1 ==> h' == h.(status := Some(FAILED)))
            && (t.cut < 3 || t.lookup.LookupThrows? ==> r'.zset == r.zset)
            && (t.cut >= 3 && (t.lookup.Knows? || (t.lookup.KnowsNothing? && p.attempts >= max)) ==>
                  r'.zset == r.zset - {p.key})
            && (t.cut >= 3 && t.lookup.KnowsNothing? && p.attempts < max ==> r'.zset == r.zset[p.key := t.at])
  {}

  /**
   * A turn in which nothing threw takes the entry off the set or scores it at the turn's time; one
   * that threw, in the lookup or between two commands, leaves it where it was.
   */
  lemma HandledIsGoneOrBehind(r: Redis, max: int, p: PendingIssue, t: Turn)
    ensures Completes(t) && p.key in AfterTurn(r, max, p, t).zset ==> AfterTurn(r, max, p, t).zset[p.key] == t.at
    ensures !Completes(t) ==> AfterTurn(r, max, p, t).zset == r.zset
  {}

  lemma {:induction false} CompleteMembersAreFetched(hashes: map<Key, Hash>, members: seq<Key>)
    requires forall k | k in members :: k in hashes && Complete(k, hashes[k])
    ensures |Fetched(hashes, members)| == |members|
    ensures forall i | 0 <= i < |members| :: Fetched(hashes, members)[i].key == members[i]
    ensures Orphans(hashes, members) == {}
  {
    if members != [] { CompleteMembersAreFetched(hashes, members[..|members| - 1]); }
  }

  /** Between two sweeps results may take entries off and accepts may add some behind e. */
  ghost predicate Meanwhile(z: map<Key, int>, z': map<Key, int>, e: Key, score: int) {
    forall k | k in z' :: (k in z && z'[k] == z[k]) || (k != e && z'[k] > score)
  }

  datatype SweepRun = SweepRun(members: seq<Key>, cutoff: int, turn: Key -> Turn) {
    function Batch(): set<Key> {
      set k | k in members
    }
  }

  /** One sweep over its batch that does not reach e, and what happens until the next. */
  ghost predicate SweepRound(r: Redis, r': Redis, sweep: SweepRun, max: int, tie: Key -> int, batchSize: nat,
                             failing: set<Key>, e: Key)
  {
    && e in r.zset && 0 <= r.zset[e] <= sweep.cutoff && (forall k | k in r.zset :: 0 <= r.zset[k])
    && Distinct(sweep.members) && (forall k | k in sweep.members :: k in r.hashes && Complete(k, r.hashes[k]))
    && IsBatch(r.zset, tie, sweep.cutoff, batchSize, sweep.Batch())
    && (forall k | k in sweep.members && k !in failing :: Completes(sweep.turn(k)))
    && (forall k | k in sweep.members :: sweep.turn(k).at > r.zset[e])
    && Meanwhile(Swept(r, max, sweep.members, sweep.turn).zset, r'.zset, e, r.zset[e])
  }

  lemma SweepIsARound(r: Redis, r': Redis, sweep: SweepRun, max: int, tie: Key -> int, batchSize: nat,
                      failing: set<Key>, e: Key)
    requires SweepRound(r, r', sweep, max, tie, batchSize, failing, e) && e !in sweep.members
    ensures Round(r.zset, r'.zset, sweep.Batch(), sweep.cutoff, tie, batchSize, failing, e)
  {
    var batch := sweep.Batch();
    var ps := Fetched(r.hashes, sweep.members);
    CompleteMembersAreFetched(r.hashes, sweep.members);
    assert r.(zset := r.zset - {}) == r;
    var mid := AfterTurns(r, max, ps, sweep.turn);
    assert mid == Swept(r, max, sweep.members, sweep.turn);
    OthersAreUntouched(r, max, ps, sweep.turn, e);
    forall k | k in r'.zset && k != e
      ensures r'.zset[k] > r.zset[e] || (k in r.zset && r'.zset[k] == r.zset[k] && k !in batch - failing)
    {
      if k in mid.zset && r'.zset[k] == mid.zset[k] {
        EntryAfterSweep(r, max, sweep, ps, k);
      }
    }
  }

  lemma EntryAfterSweep(r: Redis, max: int, sweep: SweepRun, ps: seq<PendingIssue>, k: Key)
    requires |ps| == |sweep.members| && Distinct(sweep.members)
    requires forall i | 0 <= i < |ps| :: ps[i].key == sweep.members[i]
    requires k in AfterTurns(r, max, ps, sweep.turn).zset
    ensures var score := AfterTurns(r, max, ps, sweep.turn).zset[k];
            || (k in r.zset && r.zset[k] == score && (k in sweep.members ==> !Completes(sweep.turn(k))))
            || (k in sweep.members && score == sweep.turn(k).at)
  {
    if k in sweep.members {
      var i :| 0 <= i < |ps| && sweep.members[i] == k;
      EachEntryGetsItsOwnTurn(r, max, ps, sweep.turn, i);
      HandledIsGoneOrBehind(r, max, ps[i], sweep.turn(k));
    } else {
      OthersAreUntouched(r, max, ps, sweep.turn, k);
    }
  }

  /**
   * The code's sweeps are fair: with r entries ahead of it, f of which keep failing,
   * an entry is missed by at most (r - f) / (batchSize - f) sweeps in a row.
   */
  lemma SweepsReachEveryEntry(states: seq<Redis>, sweeps: seq<SweepRun>, max: int, tie: Key -> int, batchSize: nat,
                              failing: set<Key>, e: Key)
    requires TieBreaks(tie) && |states| == |sweeps| + 1
    requires forall i | 0 <= i < |states| :: e in states[i].zset
    requires forall i | 0 <= i < |sweeps| ::
               SweepRound(states[i], states[i + 1], sweeps[i], max, tie, batchSize, failing, e)
    requires forall i | 0 <= i < |sweeps| :: e !in sweeps[i].members
    requires |Ahead(states[0].zset, tie, e) * failing| < batchSize
    ensures var ahead := Ahead(states[0].zset, tie, e);
            && |sweeps| <= (|ahead| - |ahead * failing|) / (batchSize - |ahead * failing|)
            && (ahead * failing == {} ==> |sweeps| <= |ahead| / batchSize)
  {
    var zs := seq(|states|, i requires 0 <= i < |states| => states[i].zset);
    var batches := seq(|sweeps|, i requires 0 <= i < |sweeps| => sweeps[i].Batch());
    var cutoffs := seq(|sweeps|, i requires 0 <= i < |sweeps| => sweeps[i].cutoff);
    forall i | 0 <= i < |batches|
      ensures Round(zs[i], zs[i + 1], batches[i], cutoffs[i], tie, batchSize, failing, e)
    {
      SweepIsARound(states[i], states[i + 1], sweeps[i], max, tie, batchSize, failing, e);
    }
    hide Round, SweepRound, Ahead, TieBreaks;
    EveryStaleEntryIsReached(zs, batches, cutoffs, tie, batchSize, failing, e);
  }

  // ---------------------------------------------------------------- a head that starves the rest

  const HEAD := Key(1, 1)
  const BEHIND := Key(2, 1)
  const FULL := Hash(Some(1), Some("r"), Some(1), Some(1), Some(PENDING), Some(1), Some(1), Some(1), None)

  /** Two complete entries, both long due. */
  const TWO := Redis(map[HEAD := FULL, BEHIND := FULL.(userId := Some(2))], map[HEAD := 1, BEHIND := 2])

  /** The lookup of the head throws; the turn of the other never comes. */
  const BROKEN_HEAD := SweepRun([HEAD], 10000, k => Turn(LookupThrows, 20000, 0, C.ErrorNotSent))

  /**
   * It happens: with room for one entry and a head whose lookup throws, each sweep leaves everything
   * as it is, so however many there are, the second entry is never fetched.
   */
  lemma TheSecondIsNeverReached(tie: Key -> int, max: int, n: nat)
    requires TieBreaks(tie)
    ensures var states := seq(n + 1, i => TWO); var sweeps := seq(n, i => BROKEN_HEAD);
            && Swept(TWO, max, BROKEN_HEAD.members, BROKEN_HEAD.turn) == TWO
            && (forall i | 0 <= i < n ::
                  && SweepRound(states[i], states[i + 1], sweeps[i], max, tie, 1, {HEAD}, BEHIND)
                  && BEHIND !in sweeps[i].members)
            && |Ahead(TWO.zset, tie, BEHIND) * {HEAD}| == 1
  {
    OneSweepOfTwo(max);
    assert BROKEN_HEAD.Batch() == {HEAD};
    assert StaleKeys(TWO.zset, 10000) == {HEAD, BEHIND};
    assert Ahead(TWO.zset, tie, BEHIND) * {HEAD} == {HEAD};
    assert IsBatch(TWO.zset, tie, 10000, 1, {HEAD});
  }

  lemma {:induction false} ThrowingLookupsChangeNothing(r: Redis, max: int, ps: seq<PendingIssue>, turn: Key -> Turn)
    requires forall i | 0 <= i < |ps| :: turn(ps[i].key).lookup.LookupThrows?
    ensures AfterTurns(r, max, ps, turn) == r
  {
    if ps != [] { ThrowingLookupsChangeNothing(r, max, ps[..|ps| - 1], turn); }
  }

  lemma WithoutNobody(r: Redis)
    ensures r.(zset := r.zset - {}) == r
  {
    assert r.zset - {} == r.zset;
  }

  lemma EntriesAreComplete()
    ensures forall k | k in [HEAD] :: k in TWO.hashes && Complete(k, TWO.hashes[k])
  {}

  lemma OneSweepOfTwo(max: int)
    ensures Swept(TWO, max, BROKEN_HEAD.members, BROKEN_HEAD.turn) == TWO
  {
    EntriesAreComplete();
    CompleteMembersAreFetched(TWO.hashes, [HEAD]);
    WithoutNobody(TWO);
    ThrowingLookupsChangeNothing(TWO, max, Fetched(TWO.hashes, [HEAD]), BROKEN_HEAD.turn);
    hide Fetched, Orphans, AfterTurns, Complete, TWO;
  }
}
