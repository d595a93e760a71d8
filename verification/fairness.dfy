/**
 * Which entries a sweep reaches, and after how many sweeps.
 *
 * The set is ordered by score and, among equal scores, by member; a sweep takes the first
 * batchSize of the stale entries. Entries whose lookup throws stay where they are.
 */
module Fairness {
  import opened Basics
  import opened Payloads

  /** The position of a member among members of equal score. */
  ghost predicate TieBreaks(tie: Key -> int) {
    forall a, b | a != b :: tie(a) != tie(b)
  }

  predicate Before(z: map<Key, int>, tie: Key -> int, a: Key, b: Key)
    requires a in z && b in z
  {
    z[a] < z[b] || (z[a] == z[b] && tie(a) < tie(b))
  }

  function StaleKeys(z: map<Key, int>, cutoff: int): set<Key> {
    set k | k in z && 0 <= z[k] <= cutoff
  }

  /** ZRANGEBYSCORE 0 cutoff LIMIT 0 batchSize. */
  ghost predicate IsBatch(z: map<Key, int>, tie: Key -> int, cutoff: int, batchSize: nat, batch: set<Key>) {
    && batch <= StaleKeys(z, cutoff)
    && |batch| == (if |StaleKeys(z, cutoff)| < batchSize then |StaleKeys(z, cutoff)| else batchSize)
    && forall a, b | a in StaleKeys(z, cutoff) && b in batch && Before(z, tie, a, b) :: a in batch
  }

  function Ahead(z: map<Key, int>, tie: Key -> int, e: Key): set<Key>
    requires e in z
  {
    set k | k in z && Before(z, tie, k, e)
  }

  /**
   * From one sweep to the next: what was handled is gone or scored behind e, the others stay or
   * are removed by the result consumer, and new entries come in behind e.
   */
  ghost predicate Moves(z: map<Key, int>, z': map<Key, int>, handled: set<Key>, e: Key)
    requires e in z
  {
    && (e in z' ==> z'[e] == z[e])
    && forall k | k in z' && k != e :: z'[k] > z[e] || (k in z && z'[k] == z[k] && k !in handled)
  }

  /** The rounds e sits through: in each of them e is stale and its batch does not reach it. */
  ghost predicate PassedOver(zs: seq<map<Key, int>>, batches: seq<set<Key>>, cutoffs: seq<int>, tie: Key -> int,
                             batchSize: nat, failing: set<Key>, e: Key)
  {
    && |zs| == |batches| + 1 && |cutoffs| == |batches|
    && (forall i | 0 <= i < |zs| :: e in zs[i])
    && (forall i | 0 <= i < |batches| :: Round(zs[i], zs[i + 1], batches[i], cutoffs[i], tie, batchSize, failing, e))
    && forall i | 0 <= i < |batches| :: e !in batches[i]
  }

  ghost predicate Round(z: map<Key, int>, z': map<Key, int>, batch: set<Key>, cutoff: int, tie: Key -> int,
                        batchSize: nat, failing: set<Key>, e: Key)
  {
    && e in z && 0 <= z[e] <= cutoff
    && (forall k | k in z :: 0 <= z[k])
    && IsBatch(z, tie, cutoff, batchSize, batch)
    && Moves(z, z', batch - failing, e)
  }

  lemma BeforeIsTotal(z: map<Key, int>, tie: Key -> int, a: Key, b: Key)
    requires TieBreaks(tie) && a in z && b in z && a != b
    ensures Before(z, tie, a, b) || Before(z, tie, b, a)
  {}

  /** A batch that misses e lies entirely ahead of it, and is full. */
  lemma MissedBatchIsAhead(z: map<Key, int>, batch: set<Key>, cutoff: int, tie: Key -> int, batchSize: nat, e: Key)
    requires TieBreaks(tie) && e in z && 0 <= z[e] <= cutoff && (forall k | k in z :: 0 <= z[k])
    requires IsBatch(z, tie, cutoff, batchSize, batch) && e !in batch
    ensures batch <= Ahead(z, tie, e) && |batch| == batchSize
  {
    var stale := StaleKeys(z, cutoff);
    assert e in stale;
    forall b | b in batch ensures b in Ahead(z, tie, e) {
      BeforeIsTotal(z, tie, b, e);
    }
    SubsetSize(batch, stale - {e});
  }

  /** A batch reaches e when fewer than batchSize entries are ahead of it. */
  lemma ReachedWhenFewAhead(z: map<Key, int>, batch: set<Key>, cutoff: int, tie: Key -> int, batchSize: nat, e: Key)
    requires TieBreaks(tie) && e in z && 0 <= z[e] <= cutoff && (forall k | k in z :: 0 <= z[k])
    requires IsBatch(z, tie, cutoff, batchSize, batch)
    ensures |Ahead(z, tie, e)| < batchSize ==> e in batch
    ensures |Ahead(z, tie, e)| >= batchSize ==> e !in batch
  {
    if e !in batch {
      MissedBatchIsAhead(z, batch, cutoff, tie, batchSize, e);
      SubsetSize(batch, Ahead(z, tie, e));
    } else {
      var ahead := Ahead(z, tie, e);
      assert ahead + {e} <= batch;
      SubsetSize(ahead + {e}, batch);
    }
  }

  /** A round that passes e over handles at least batchSize minus the failing entries, all ahead of e. */
  lemma RoundShortensTheQueue(z: map<Key, int>, z': map<Key, int>, batch: set<Key>, cutoff: int, tie: Key -> int,
                              batchSize: nat, failing: set<Key>, e: Key)
    requires TieBreaks(tie) && Round(z, z', batch, cutoff, tie, batchSize, failing, e) && e !in batch && e in z'
    ensures |Ahead(z', tie, e)| + batchSize <= |Ahead(z, tie, e)| + |Ahead(z, tie, e) * failing|
    ensures Ahead(z', tie, e) * failing <= Ahead(z, tie, e) * failing
  {
    var ahead, ahead' := Ahead(z, tie, e), Ahead(z', tie, e);
    MissedBatchIsAhead(z, batch, cutoff, tie, batchSize, e);
    assert ahead' <= ahead - (batch - failing);
    SubsetSize(ahead', ahead - (batch - failing));
    SubsetSize(batch - failing, ahead);
    assert batch == (batch - failing) + (batch * failing);
    assert batch * failing <= ahead * failing;
    SubsetSize(batch * failing, ahead * failing);
    SubsetSize(batch - failing, batch);
    assert batch - (batch - failing) == batch * failing;
  }

  lemma {:induction false} PassedOverShortens(zs: seq<map<Key, int>>, batches: seq<set<Key>>, cutoffs: seq<int>,
                                              tie: Key -> int, batchSize: nat, failing: set<Key>, e: Key, n: nat)
    requires TieBreaks(tie) && PassedOver(zs, batches, cutoffs, tie, batchSize, failing, e) && n <= |batches|
    ensures |Ahead(zs[n], tie, e)| + n * batchSize <= |Ahead(zs[0], tie, e)| + n * |Ahead(zs[0], tie, e) * failing|
    ensures Ahead(zs[n], tie, e) * failing <= Ahead(zs[0], tie, e) * failing
  {
    if n > 0 {
      var m := n - 1;
      PassedOverShortens(zs, batches, cutoffs, tie, batchSize, failing, e, m);
      assert Round(zs[m], zs[m + 1], batches[m], cutoffs[m], tie, batchSize, failing, e);
      RoundShortensTheQueue(zs[m], zs[m + 1], batches[m], cutoffs[m], tie, batchSize, failing, e);
      SubsetSize(Ahead(zs[m], tie, e) * failing, Ahead(zs[0], tie, e) * failing);
      var f := |Ahead(zs[0], tie, e) * failing|;
      assert n * batchSize == m * batchSize + batchSize && n * f == m * f + f;
    }
  }

  lemma DivBound(n: nat, x: int, d: int)
    requires d > 0 && n * d <= x
    ensures n <= x / d
  {
    var q := x / d;
    assert (q + 1) * d == q * d + d;
    MulOrder(q + 1, n, d);
  }

  lemma RoundsBound(rounds: nat, r: nat, f: nat, b: nat)
    requires f < b && f <= r
    requires rounds > 0 ==> b + (rounds - 1) * b <= r + (rounds - 1) * f
    ensures rounds <= (r - f) / (b - f)
    ensures f == 0 ==> rounds <= r / b
  {
    var d := b - f;
    if rounds > 0 {
      assert (rounds - 1) * d == (rounds - 1) * b - (rounds - 1) * f;
      assert rounds * d == (rounds - 1) * d + d;
    }
    assert rounds * d <= r - f;
    DivBound(rounds, r - f, d);
  }

  lemma LastRound(zs: seq<map<Key, int>>, batches: seq<set<Key>>, cutoffs: seq<int>,
                  tie: Key -> int, batchSize: nat, failing: set<Key>, e: Key)
    requires TieBreaks(tie) && PassedOver(zs, batches, cutoffs, tie, batchSize, failing, e) && |batches| > 0
    ensures var r := |Ahead(zs[0], tie, e)|; var f := |Ahead(zs[0], tie, e) * failing|;
            batchSize + (|batches| - 1) * batchSize <= r + (|batches| - 1) * f
  {
    var m := |batches| - 1;
    PassedOverShortens(zs, batches, cutoffs, tie, batchSize, failing, e, m);
    assert Round(zs[m], zs[m + 1], batches[m], cutoffs[m], tie, batchSize, failing, e);
    ReachedWhenFewAhead(zs[m], batches[m], cutoffs[m], tie, batchSize, e);
  }

  lemma BeginsInTheSet(zs: seq<map<Key, int>>, batches: seq<set<Key>>, cutoffs: seq<int>,
                       tie: Key -> int, batchSize: nat, failing: set<Key>, e: Key)
    requires PassedOver(zs, batches, cutoffs, tie, batchSize, failing, e)
    ensures |zs| > 0 && e in zs[0]
  {}

  /**
   * Fairness. With r entries ahead of it, f of which keep failing their lookup (f below the batch
   * size), an entry is passed over at most (r - f) / (batchSize - f) times: it is reached by the
   * sweep after that. Without failures that is sweep r / batchSize + 1.
   */
  lemma EveryStaleEntryIsReached(zs: seq<map<Key, int>>, batches: seq<set<Key>>, cutoffs: seq<int>,
                                 tie: Key -> int, batchSize: nat, failing: set<Key>, e: Key)
    requires TieBreaks(tie) && PassedOver(zs, batches, cutoffs, tie, batchSize, failing, e)
    requires |Ahead(zs[0], tie, e) * failing| < batchSize
    ensures var r := |Ahead(zs[0], tie, e)|; var f := |Ahead(zs[0], tie, e) * failing|;
            |batches| <= (r - f) / (batchSize - f)
    ensures Ahead(zs[0], tie, e) * failing == {} ==> |batches| <= |Ahead(zs[0], tie, e)| / batchSize
  {
    hide *;
    BeginsInTheSet(zs, batches, cutoffs, tie, batchSize, failing, e);
    var r, f := |Ahead(zs[0], tie, e)|, |Ahead(zs[0], tie, e) * failing|;
    SubsetSize(Ahead(zs[0], tie, e) * failing, Ahead(zs[0], tie, e));
    if |batches| > 0 { LastRound(zs, batches, cutoffs, tie, batchSize, failing, e); }
    RoundsBound(|batches|, r, f, batchSize);
  }

  /**
   * The bound cannot do without its condition: as soon as batchSize entries ahead keep failing
   * (they are neither removed nor re-scored), no sweep ever reaches the entry.
   */
  lemma {:induction false} FailingHeadStarves(zs: seq<map<Key, int>>, batches: seq<set<Key>>, cutoffs: seq<int>,
                                              tie: Key -> int, batchSize: nat, failing: set<Key>, e: Key, n: nat)
    requires TieBreaks(tie) && |zs| == |batches| + 1 && |cutoffs| == |batches| && n < |batches|
    requires forall i | 0 <= i < |zs| :: e in zs[i]
    requires forall i | 0 <= i < |batches| :: Round(zs[i], zs[i + 1], batches[i], cutoffs[i], tie, batchSize, failing, e)
    requires forall i, k | 0 <= i < |batches| && k in failing && k in zs[i] :: k in zs[i + 1] && zs[i + 1][k] == zs[i][k]
    requires |Ahead(zs[0], tie, e) * failing| >= batchSize
    ensures e !in batches[n]
  {
    HeadStays(zs, batches, cutoffs, tie, batchSize, failing, e, n);
    assert Round(zs[n], zs[n + 1], batches[n], cutoffs[n], tie, batchSize, failing, e);
    ReachedWhenFewAhead(zs[n], batches[n], cutoffs[n], tie, batchSize, e);
    SubsetSize(Ahead(zs[0], tie, e) * failing, Ahead(zs[n], tie, e));
  }

  lemma {:induction false} HeadStays(zs: seq<map<Key, int>>, batches: seq<set<Key>>, cutoffs: seq<int>,
                                     tie: Key -> int, batchSize: nat, failing: set<Key>, e: Key, n: nat)
    requires |zs| == |batches| + 1 && |cutoffs| == |batches| && n <= |batches|
    requires forall i | 0 <= i < |zs| :: e in zs[i]
    requires forall i | 0 <= i < |batches| :: Round(zs[i], zs[i + 1], batches[i], cutoffs[i], tie, batchSize, failing, e)
    requires forall i, k | 0 <= i < |batches| && k in failing && k in zs[i] :: k in zs[i + 1] && zs[i + 1][k] == zs[i][k]
    ensures Ahead(zs[0], tie, e) * failing <= Ahead(zs[n], tie, e)
    ensures zs[n][e] == zs[0][e]
  {
    if n > 0 {
      HeadStays(zs, batches, cutoffs, tie, batchSize, failing, e, n - 1);
      assert Round(zs[n - 1], zs[n - 1 + 1], batches[n - 1], cutoffs[n - 1], tie, batchSize, failing, e);
      forall k | k in Ahead(zs[0], tie, e) * failing ensures k in Ahead(zs[n], tie, e) {
        assert k in Ahead(zs[n - 1], tie, e) && k in failing;
        assert k in zs[n - 1 + 1] && zs[n - 1 + 1][k] == zs[n - 1][k];
      }
    }
  }
}
