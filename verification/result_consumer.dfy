/**
 * Server-b's consumer of the result topic. Its loop is the request consumer's with a commit after
 * every record; what it does with a record is a markResult, retried until it goes through.
 */
module ResultConsumer {
  import opened Payloads
  import opened Redis
  import opened Recovery
  import opened PendingStore
  import R = RequestConsumer

  /** A record given up on left the first cut commands executed. */
  datatype Delivery = Skipped | Processed | GivenUp(cut: nat)

  type Record = Option<ResultPayload>

  predicate WellFormed(r: Record) {
    r.Some? && AssertIssueResultPayload(r.value) == Check.Accepted
  }

  function MarkedBy(r: Redis, m: ResultPayload): Redis
    requires ValidResult(m)
  {
    Marked(r, ResultKey(m), MapResultStatus(m.status.value), m.couponCode)
  }

  /** The records applied one after the other; malformed ones are passed over. */
  function Applied(r: Redis, records: seq<Record>): Redis {
    if records == [] then r
    else
      var before := Applied(r, records[..|records| - 1]);
      var last := records[|records| - 1];
      if WellFormed(last) then MarkedBy(before, last.value) else before
  }

  /** The records as they were delivered: processed in full, skipped, or cut off. */
  function Delivered(r: Redis, records: seq<Record>, done: seq<Delivery>): Redis
    requires |records| == |done|
  {
    if done == [] then r
    else
      var n := |done| - 1;
      var before := Delivered(r, records[..n], done[..n]);
      if !WellFormed(records[n]) then before
      else if done[n].GivenUp? then CutMark(before, records[n].value, done[n].cut)
      else MarkedBy(before, records[n].value)
  }

  function CutMark(r: Redis, m: ResultPayload, cut: nat): Redis
    requires ValidResult(m)
  {
    MarkedUpTo(r, ResultKey(m), MapResultStatus(m.status.value), m.couponCode, cut)
  }

  lemma NothingDelivered(r: Redis, log: seq<Record>, first: nat)
    requires first <= |log|
    ensures Delivered(r, log[first..first], []) == r
  {}

  lemma OneDeliveryMore(r: Redis, log: seq<Record>, first: nat, done: seq<Delivery>, d: Delivery)
    requires first + |done| < |log|
    ensures var n := first + |done|; var before := Delivered(r, log[first..n], done);
            Delivered(r, log[first..n + 1], done + [d]) ==
            if !WellFormed(log[n]) then before
            else if d.GivenUp? then CutMark(before, log[n].value, d.cut)
            else MarkedBy(before, log[n].value)
  {
    var n := first + |done|;
    assert log[first..n + 1][..|done|] == log[first..n] && (done + [d])[..|done|] == done;
    hide MarkedBy, CutMark, WellFormed;
  }

  /** A result writes the status of its word, its code when it has one, and takes the entry off the set. */
  lemma WhatAResultWrites(r: Redis, m: ResultPayload)
    requires ValidResult(m)
    ensures var k := Key(m.userId, m.couponTypeId); var h := HashOf(r, k);
            var code := if m.couponCode.Some? then m.couponCode else h.code;
            && (m.status == Some(ResultSuccess) ==>
                  MarkedBy(r, m) == Redis(r.hashes[k := h.(status := Some(SUCCESS), code := code)], r.zset - {k}))
            && (m.status == Some(ResultSoldOut) ==>
                  MarkedBy(r, m) == Redis(r.hashes[k := h.(status := Some(SOLD_OUT), code := code)], r.zset - {k}))
            && (m.status == Some(ResultFailed) ==>
                  MarkedBy(r, m) == Redis(r.hashes[k := h.(status := Some(FAILED), code := code)], r.zset - {k}))
  {
    MarkedForm(r, ResultKey(m), MapResultStatus(m.status.value), m.couponCode, ALL_COMMANDS);
    hide MarkedUpTo, Marked;
    assert MarkedBy(r, m) == MarkedUpTo(r, ResultKey(m), MapResultStatus(m.status.value), m.couponCode, ALL_COMMANDS);
  }

  /** Without a give-up that is the records applied one after the other. */
  lemma {:induction false} WithoutGiveUpsAllAreApplied(r: Redis, records: seq<Record>, done: seq<Delivery>)
    requires |records| == |done|
    requires forall i | 0 <= i < |done| :: !done[i].GivenUp?
    ensures Delivered(r, records, done) == Applied(r, records)
  {
    if done != [] { WithoutGiveUpsAllAreApplied(r, records[..|done| - 1], done[..|done| - 1]); }
  }

  function HashAfter(h: Hash, status: PendingStatus, code: Option<string>, cut: nat): Hash {
    if cut == 0 then h
    else h.(status := Some(status), code := if cut >= 2 && code.Some? then code else h.code)
  }

  lemma MarkedForm(r: Redis, k: Key, status: PendingStatus, code: Option<string>, cut: nat)
    ensures MarkedUpTo(r, k, status, code, cut).hashes ==
            if cut == 0 then r.hashes else r.hashes[k := HashAfter(HashOf(r, k), status, code, cut)]
    ensures MarkedUpTo(r, k, status, code, cut).zset == if cut >= ALL_COMMANDS then r.zset - {k} else r.zset
    ensures cut >= ALL_COMMANDS ==> MarkedUpTo(r, k, status, code, cut) == Marked(r, k, status, code)
  {}

  /** A try after a failed one comes to what the longer of the two would alone: a retry that works completes it. */
  lemma RetryCompletes(r: Redis, k: Key, status: PendingStatus, code: Option<string>, cut: nat, again: nat)
    ensures MarkedUpTo(MarkedUpTo(r, k, status, code, cut), k, status, code, again) ==
            MarkedUpTo(r, k, status, code, if cut >= again then cut else again)
  {
    MarkedForm(r, k, status, code, cut);
    MarkedForm(MarkedUpTo(r, k, status, code, cut), k, status, code, again);
    MarkedForm(r, k, status, code, if cut >= again then cut else again);
    hide MarkedUpTo, Marked;
  }

  class CouponIssueResultConsumer {
    const store: RedisPendingIssueStore
    const maxRecordsPerBatch: nat
    const maxDeliveryAttempts: nat
    var offsets: R.Offsets

    constructor (store: RedisPendingIssueStore, maxRecords: nat, maxAttempts: nat, committed: nat)
      ensures this.store == store && maxRecordsPerBatch == maxRecords && maxDeliveryAttempts == maxAttempts
      ensures offsets == R.Offsets(committed, committed, [])
    {
      this.store, maxRecordsPerBatch, maxDeliveryAttempts := store, maxRecords, maxAttempts;
      offsets := R.Offsets(committed, committed, []);
    }

    /** cuts(n) is how many commands of try n are executed. */
    method Deliver(record: Record, cuts: nat -> nat) returns (d: Delivery)
      modifies store
      ensures d.Skipped? <==> !WellFormed(record)
      ensures d.Skipped? ==> store.data == old(store.data)
      ensures d.Processed? ==> store.data == MarkedBy(old(store.data), record.value)
      ensures d.GivenUp? ==> forall n | 1 <= n <= maxDeliveryAttempts :: cuts(n) <= d.cut
      ensures d.GivenUp? ==> d.cut < ALL_COMMANDS
      ensures d.GivenUp? ==> d.cut == 0 || exists n :: 1 <= n <= maxDeliveryAttempts && cuts(n) == d.cut
      ensures d.GivenUp? ==> store.data == CutMark(old(store.data), record.value, d.cut)
    {
      if record.None? || AssertIssueResultPayload(record.value) != Check.Accepted { return Skipped; }
      var p := record.value;
      var k, status := ResultKey(p), MapResultStatus(p.status.value);
      var attempt := 1;
      var cut: nat := 0;
      while attempt <= maxDeliveryAttempts
        invariant 1 <= attempt <= maxDeliveryAttempts + 1
        invariant forall n | 1 <= n < attempt :: cuts(n) <= cut
        invariant cut == 0 || exists n :: 1 <= n < attempt && cuts(n) == cut
        invariant cut < ALL_COMMANDS && store.data == MarkedUpTo(old(store.data), k, status, p.couponCode, cut)
      {
        RetryCompletes(old(store.data), k, status, p.couponCode, cut, cuts(attempt));
        var done := store.MarkResult(k, status, p.couponCode, cuts(attempt));
        MarkedForm(old(store.data), k, status, p.couponCode, if cut >= cuts(attempt) then cut else cuts(attempt));
        if done { return Processed; }
        cut := if cut >= cuts(attempt) then cut else cuts(attempt);
        attempt := attempt + 1;
      }
      return GivenUp(cut);
    }

    /** Redis is what the delivered records, in order and as far as each got, make of it. */
    method EachBatch(log: seq<Record>, fetched: nat, stopAfter: nat, cuts: (nat, nat) -> nat) returns (done: seq<Delivery>)
      requires offsets.resolved + fetched <= |log| && offsets.committed == offsets.resolved
      modifies this, store
      ensures |done| == R.Least(fetched, stopAfter, maxRecordsPerBatch)
      ensures offsets == R.Records(old(offsets), 1, |done|)
      ensures offsets.committed == offsets.resolved == old(offsets.resolved) + |done| <= |log|
      ensures forall i | 0 <= i < |done| :: done[i].Skipped? <==> !WellFormed(log[old(offsets.resolved) + i])
      ensures store.data == Delivered(old(store.data), log[old(offsets.resolved)..old(offsets.resolved) + |done|], done)
    {
      hide Delivered, MarkedBy, CutMark, WellFormed;
      done := [];
      var first := offsets.resolved;
      NothingDelivered(store.data, log, first);
      while |done| < fetched
        invariant |done| <= R.Least(fetched, stopAfter, maxRecordsPerBatch)
        invariant offsets == R.Records(old(offsets), 1, |done|)
        invariant offsets.committed == offsets.resolved == first + |done|
        invariant forall i | 0 <= i < |done| :: done[i].Skipped? <==> !WellFormed(log[first + i])
        invariant store.data == Delivered(old(store.data), log[first..first + |done|], done)
        decreases fetched - |done|
      {
        if |done| >= stopAfter { break; }
        if |done| >= maxRecordsPerBatch { break; }
        var offset := offsets.resolved;
        var d := Deliver(log[offset], (n: nat) => cuts(offset, n));
        OneDeliveryMore(old(store.data), log, first, done, d);
        done := done + [d];
        offsets := offsets.(resolved := offset + 1, delivered := offsets.delivered + [offset]);
        offsets := offsets.(committed := offsets.resolved);
      }
    }
  }

  // ---------------------------------------------------------------- redelivery

  predicate Says(record: Record, k: Key) {
    WellFormed(record) && ResultKey(record.value) == k
  }

  /** After a result is applied its entry carries it, as long as only the same result comes again. */
  lemma {:induction false} OutcomeStays(r: Redis, m: ResultPayload, records: seq<Record>)
    requires ValidResult(m) && MarkedBy(r, m) == r
    requires forall i | 0 <= i < |records| && Says(records[i], ResultKey(m)) :: records[i].value == m
    ensures MarkedBy(Applied(r, records), m) == Applied(r, records)
  {
    if records != [] {
      var n := |records| - 1;
      OutcomeStays(r, m, records[..n]);
      if WellFormed(records[n]) {
        MarksCommute(Applied(r, records[..n]), records[n].value, m);
      }
    }
  }

  function FinalHash(r: Redis, m: ResultPayload): Hash
    requires ValidResult(m)
  {
    HashAfter(HashOf(r, ResultKey(m)), MapResultStatus(m.status.value), m.couponCode, ALL_COMMANDS)
  }

  lemma OtherHashIsKept(r: Redis, m1: ResultPayload, m2: ResultPayload)
    requires ValidResult(m1) && ValidResult(m2) && ResultKey(m1) != ResultKey(m2)
    ensures FinalHash(MarkedBy(r, m1), m2) == FinalHash(r, m2)
  {
    MarkedByForm(r, m1);
  }

  lemma UpdatesCommute(m: map<Key, Hash>, k1: Key, h1: Hash, k2: Key, h2: Hash)
    requires k1 != k2
    ensures m[k1 := h1][k2 := h2] == m[k2 := h2][k1 := h1]
  {}

  lemma MarksCommute(r: Redis, m1: ResultPayload, m2: ResultPayload)
    requires ValidResult(m1) && ValidResult(m2) && (ResultKey(m1) == ResultKey(m2) ==> m1 == m2)
    ensures MarkedBy(MarkedBy(r, m1), m2) == MarkedBy(MarkedBy(r, m2), m1)
  {
    hide *;
    if ResultKey(m1) != ResultKey(m2) {
      var k1, k2 := ResultKey(m1), ResultKey(m2);
      MarkedByForm(r, m1);
      MarkedByForm(r, m2);
      MarkedByForm(MarkedBy(r, m1), m2);
      MarkedByForm(MarkedBy(r, m2), m1);
      OtherHashIsKept(r, m1, m2);
      OtherHashIsKept(r, m2, m1);
      UpdatesCommute(r.hashes, k1, FinalHash(r, m1), k2, FinalHash(r, m2));
      assert r.zset - {k1} - {k2} == r.zset - {k2} - {k1};
    }
  }

  lemma MarkedByForm(r: Redis, m: ResultPayload)
    requires ValidResult(m)
    ensures MarkedBy(r, m).hashes ==
            r.hashes[ResultKey(m) := FinalHash(r, m)]
    ensures MarkedBy(r, m).zset == r.zset - {ResultKey(m)}
  {
    MarkedForm(r, ResultKey(m), MapResultStatus(m.status.value), m.couponCode, ALL_COMMANDS);
  }

  lemma MarkingTwiceIsOnce(r: Redis, m: ResultPayload)
    requires ValidResult(m)
    ensures MarkedBy(MarkedBy(r, m), m) == MarkedBy(r, m)
  {}

  /** A result that comes again, however much later, changes nothing as long as its key has one outcome. */
  lemma {:induction false} RedeliveredResultIsHarmless(r: Redis, before: seq<Record>, m: ResultPayload,
                                                       meanwhile: seq<Record>)
    requires ValidResult(m)
    requires forall i | 0 <= i < |meanwhile| && Says(meanwhile[i], ResultKey(m)) :: meanwhile[i].value == m
    ensures var r1 := Applied(Applied(r, before + [Some(m)]), meanwhile);
            Applied(r1, [Some(m)]) == r1
  {
    assert (before + [Some(m)])[..|before|] == before;
    var r0 := Applied(r, before + [Some(m)]);
    MarkingTwiceIsOnce(Applied(r, before), m);
    assert MarkedBy(r0, m) == r0;
    OutcomeStays(r0, m, meanwhile);
    assert [Some(m)][..0] == [];
  }
}
