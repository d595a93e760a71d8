/** Facts about sequences, sets and products that several modules need. */
module Basics {
  predicate Distinct<T(==)>(xs: seq<T>) {
    forall i, j | 0 <= i < j < |xs| :: xs[i] != xs[j]
  }

  lemma SubsetSize<T>(a: set<T>, b: set<T>)
    requires a <= b
    ensures |a| <= |b| && |b - a| == |b| - |a|
  {
    assert b == a + (b - a);
  }

  lemma MulOrder(a: int, b: int, d: nat)
    ensures a <= b ==> a * d <= b * d
  {}

  /** A strict total order of these. */
  ghost predicate Orders<K(!new)>(all: set<K>, before: (K, K) -> bool) {
    && (forall a | a in all :: !before(a, a))
    && (forall a, b | a in all && b in all && a != b :: before(a, b) || before(b, a))
    && forall a, b, c | a in all && b in all && c in all && before(a, b) && before(b, c) :: before(a, c)
  }

  lemma {:induction false} LeastOf<K(!new)>(all: set<K>, before: (K, K) -> bool) returns (least: K)
    requires Orders(all, before) && all != {}
    ensures least in all && forall a | a in all && a != least :: before(least, a)
    decreases |all|
  {
    least :| least in all;
    if all != {least} {
      var other := LeastOf(all - {least}, before);
      if before(other, least) { least := other; }
    }
  }

  /** The first n of them, in order. */
  lemma {:induction false} FirstOf<K(!new)>(all: set<K>, before: (K, K) -> bool, n: nat) returns (xs: seq<K>)
    requires Orders(all, before)
    ensures Distinct(xs) && (forall x | x in xs :: x in all) && |xs| == if |all| <= n then |all| else n
    ensures forall i, j | 0 <= i < j < |xs| :: before(xs[i], xs[j])
    ensures forall a, b | a in all && b in xs && before(a, b) :: a in xs
    decreases n
  {
    if n == 0 || all == {} {
      xs := [];
    } else {
      var least := LeastOf(all, before);
      var rest := FirstOf(all - {least}, before, n - 1);
      xs := [least] + rest;
    }
  }

  /** Some of the positions below n, in order. */
  predicate Picks(at: seq<nat>, n: nat) {
    && (forall j | 0 <= j < |at| :: at[j] < n)
    && forall i, j | 0 <= i < j < |at| :: at[i] < at[j]
  }

  lemma OnePickMore(at: seq<nat>, n: nat)
    requires Picks(at, n)
    ensures Picks(at, n + 1) && Picks(at + [n], n + 1) && n !in at
    ensures forall i :: i in at + [n] <==> i in at || i == n
  {}
}
