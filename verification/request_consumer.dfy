/**
 * Server-c's consumer of the request topic: the bounded retry of one record, the throttled loop over
 * a batch, and what any sequence of batches and crashes adds up to.
 */
module RequestConsumer {
  import opened Payloads
  import opened CouponDb
  import opened IssueProcessor

  /** One try at a record: the clock, the code drawn, what the snapshot misses, the statements that fail. */
  datatype Try = Try(now: int, code: string, missed: set<Key>, broken: set<Statement>)

  /** How a record ended; attempt is the run of the transaction that went through. */
  datatype Delivery = Skipped | Processed(attempt: Attempt) | GivenUp

  /** null is a message without a value or with one that is not JSON. */
  type Record = Option<RequestPayload>

  predicate WellFormed(r: Record) {
    r.Some? && AssertIssueRequestPayload(r.value) == Accepted
  }

  function AttemptAt(p: RequestPayload, t: Try): Attempt {
    Attempt(p, t.now, t.code)
  }

  /** This try does not go through. */
  predicate TryFails(events: map<int, Event>, db: Db, p: RequestPayload, t: Try) {
    Throws(events, db, t.missed, AttemptAt(p, t), t.broken)
  }

  /** Try n is the first of at most max that goes through. */
  ghost predicate FirstThrough(events: map<int, Event>, db: Db, p: RequestPayload, tries: nat -> Try, max: nat, n: nat) {
    && 1 <= n <= max && !TryFails(events, db, p, tries(n))
    && forall m | 1 <= m < n :: TryFails(events, db, p, tries(m))
  }

  /** The runs of the transaction that went through, in order. */
  function Effects(done: seq<Delivery>): seq<Attempt> {
    if done == [] then []
    else Effects(done[..|done| - 1]) + if done[|done| - 1].Processed? then [done[|done| - 1].attempt] else []
  }

  predicate Fits(d: Delivery, r: Record) {
    && (d.Skipped? <==> !WellFormed(r))
    && (d.Processed? ==> r.Some? && d.attempt.req == r.value)
  }

  lemma EffectsOfNone(events: map<int, Event>, db: Db)
    ensures IssueAll(events, db, Effects([])) == db
  {}

  lemma EffectsAppend(events: map<int, Event>, db: Db, done: seq<Delivery>, d: Delivery)
    ensures IssueAll(events, db, Effects(done + [d])) ==
            if d.Processed? then Issue(events, IssueAll(events, db, Effects(done)), d.attempt)
            else IssueAll(events, db, Effects(done))
  {
    hide Issue;
    assert (done + [d])[..|done|] == done;
    var effects := Effects(done);
    if d.Processed? {
      assert (effects + [d.attempt])[..|effects|] == effects;
    } else {
      assert effects + [] == effects;
    }
  }

  /** A delivery that went through left its user a row, as EachBatch ensures. */
  ghost predicate LeftARow(events: map<int, Event>, db: Db, done: seq<Delivery>, i: nat)
    requires i < |done|
  {
    done[i].Processed? ==> HasKey(IssueAll(events, db, Effects(done[..i + 1])).coupons, AttemptKey(done[i].attempt))
  }

  lemma OneMoreLeftARow(events: map<int, Event>, db: Db, done: seq<Delivery>, d: Delivery)
    requires forall i | 0 <= i < |done| :: LeftARow(events, db, done, i)
    requires d.Processed? ==> HasKey(IssueAll(events, db, Effects(done + [d])).coupons, AttemptKey(d.attempt))
    ensures forall i | 0 <= i < |done + [d]| :: LeftARow(events, db, done + [d], i)
  {
    hide IssueAll, HasKey, Effects;
    var all := done + [d];
    forall i | 0 <= i < |all| ensures LeftARow(events, db, all, i) {
      if i < |done| {
        assert LeftARow(events, db, done, i) && all[..i + 1] == done[..i + 1];
      } else {
        assert all[..i + 1] == all;
      }
    }
  }

  // ---------------------------------------------------------------- offsets

  /** committed survives a crash; resolved is where the next fetch begins; delivered is history. */
  datatype Offsets = Offsets(committed: nat, resolved: nat, delivered: seq<nat>)

  /** Deliver, resolve, and commit when threshold records are resolved and not committed. */
  function OneRecord(o: Offsets, threshold: nat): Offsets {
    var next := o.resolved + 1;
    Offsets(if next - o.committed >= threshold then next else o.committed, next, o.delivered + [o.resolved])
  }

  function Records(o: Offsets, threshold: nat, n: nat): Offsets {
    if n == 0 then o else OneRecord(Records(o, threshold, n - 1), threshold)
  }

  function Least(a: nat, b: nat, c: nat): (r: nat)
    ensures r <= a && r <= b && r <= c && (r == a || r == b || r == c)
  {
    if a <= b && a <= c then a else if b <= c then b else c
  }

  class CouponIssueRequestConsumer {
    const processor: CouponIssueProcessor
    const maxRecordsPerBatch: nat
    const maxDeliveryAttempts: nat
    const commitThreshold: nat
    var offsets: Offsets

    constructor (processor: CouponIssueProcessor, maxRecords: nat, maxAttempts: nat, threshold: nat, committed: nat)
      ensures this.processor == processor && maxRecordsPerBatch == maxRecords
      ensures maxDeliveryAttempts == maxAttempts && commitThreshold == threshold
      ensures offsets == Offsets(committed, committed, [])
    {
      this.processor := processor;
      maxRecordsPerBatch, maxDeliveryAttempts, commitThreshold := maxRecords, maxAttempts, threshold;
      offsets := Offsets(committed, committed, []);
    }

    /**
     * A record is skipped exactly when it is malformed; otherwise the first try that goes through is
     * the one that takes effect, and its user then has a row; it is given up on exactly when all
     * maxDeliveryAttempts tries fail, and then nothing changed.
     */
    method Deliver(record: Record, tries: nat -> Try) returns (d: Delivery)
      modifies processor.tables, processor.cache
      ensures Fits(d, record)
      ensures processor.tables.Contents() ==
              if d.Processed? then Issue(processor.events, old(processor.tables.Contents()), d.attempt)
              else old(processor.tables.Contents())
      ensures d.Processed? ==> HasKey(processor.tables.coupons, AttemptKey(d.attempt))
      ensures d.Processed? ==>
                exists n :: && FirstThrough(processor.events, old(processor.tables.Contents()), record.value, tries,
                                            maxDeliveryAttempts, n)
                            && d.attempt == Attempt(record.value, tries(n).now, tries(n).code)
      ensures d.GivenUp? ==>
                forall n | 1 <= n <= maxDeliveryAttempts ::
                  TryFails(processor.events, old(processor.tables.Contents()), record.value, tries(n))
    {
      if record.None? || AssertIssueRequestPayload(record.value) != Accepted { return Skipped; }
      var attempt := 1;
      while attempt <= maxDeliveryAttempts
        invariant 1 <= attempt <= maxDeliveryAttempts + 1
        invariant processor.tables.Contents() == old(processor.tables.Contents())
        invariant forall n | 1 <= n < attempt ::
                    TryFails(processor.events, old(processor.tables.Contents()), record.value, tries(n))
      {
        var t := tries(attempt);
        var end := processor.Process(AttemptAt(record.value, t), t.missed, t.broken);
        if end.Returned? {
          assert FirstThrough(processor.events, old(processor.tables.Contents()), record.value, tries,
                              maxDeliveryAttempts, attempt);
          return Processed(AttemptAt(record.value, t));
        }
        attempt := attempt + 1;
      }
      return GivenUp;
    }

    /**
     * fetched records lie in the batch; stopAfter is when the consumer is told to stop or goes stale.
     * Only what was delivered is resolved, so what the throttle leaves is fetched again.
     */
    method EachBatch(log: seq<Record>, fetched: nat, stopAfter: nat, tries: (nat, nat) -> Try) returns (done: seq<Delivery>)
      requires offsets.resolved + fetched <= |log|
      modifies this, processor.tables, processor.cache
      ensures |done| == Least(fetched, stopAfter, maxRecordsPerBatch)
      ensures offsets == Records(old(offsets), commitThreshold, |done|)
      ensures offsets.resolved == old(offsets.resolved) + |done| <= |log|
      ensures forall i | 0 <= i < |done| :: Fits(done[i], log[old(offsets.resolved) + i])
      ensures forall i | 0 <= i < |done| :: LeftARow(processor.events, old(processor.tables.Contents()), done, i)
      ensures processor.tables.Contents() ==
              IssueAll(processor.events, old(processor.tables.Contents()), Effects(done))
    {
      hide IssueAll, Issue, HasKey, LeftARow;
      done := [];
      EffectsOfNone(processor.events, processor.tables.Contents());
      var first := offsets.resolved;
      while |done| < fetched
        invariant |done| <= Least(fetched, stopAfter, maxRecordsPerBatch)
        invariant offsets == Records(old(offsets), commitThreshold, |done|)
        invariant offsets.resolved == first + |done|
        invariant forall i | 0 <= i < |done| :: Fits(done[i], log[first + i])
        invariant forall i | 0 <= i < |done| :: LeftARow(processor.events, old(processor.tables.Contents()), done, i)
        invariant processor.tables.Contents() ==
                  IssueAll(processor.events, old(processor.tables.Contents()), Effects(done))
        decreases fetched - |done|
      {
        if |done| >= stopAfter { break; }
        if |done| >= maxRecordsPerBatch { break; }
        var offset := offsets.resolved;
        var d := Deliver(log[offset], (n: nat) => tries(offset, n));
        EffectsAppend(processor.events, old(processor.tables.Contents()), done, d);
        OneMoreLeftARow(processor.events, old(processor.tables.Contents()), done, d);
        done := done + [d];
        offsets := offsets.(resolved := offset + 1, delivered := offsets.delivered + [offset]);
        CommitIfNecessary();
      }
    }

    /** Commits what is resolved once the threshold is reached; what is committed never falls back. */
    method CommitIfNecessary()
      modifies this`offsets
      ensures offsets.resolved - offsets.committed < commitThreshold || offsets.committed == offsets.resolved
      ensures old(offsets).committed <= old(offsets).resolved ==>
                old(offsets).committed <= offsets.committed <= offsets.resolved
      ensures offsets == old(offsets).(committed := if old(offsets).resolved - old(offsets).committed >= commitThreshold
                                                    then old(offsets).resolved else old(offsets).committed)
    {
      if offsets.resolved - offsets.committed >= commitThreshold {
        offsets := offsets.(committed := offsets.resolved);
      }
    }
  }

  // ---------------------------------------------------------------- batches and crashes

  /** A crash falls between two records, after a delivery, or before a commit that was due. */
  datatype Happening = RecordDone | CrashBetween | CrashAfterDelivery | CrashBeforeCommit

  function Restarted(o: Offsets): Offsets {
    o.(resolved := o.committed)
  }

  function Happens(o: Offsets, threshold: nat, h: Happening): Offsets {
    match h
    case RecordDone => OneRecord(o, threshold)
    case CrashBetween => Restarted(o)
    case CrashAfterDelivery => Restarted(o.(delivered := o.delivered + [o.resolved]))
    case CrashBeforeCommit => Restarted(o.(delivered := o.delivered + [o.resolved]))
  }

  function Happened(threshold: nat, hs: seq<Happening>): Offsets {
    if hs == [] then Offsets(0, 0, [])
    else Happens(Happened(threshold, hs[..|hs| - 1]), threshold, hs[|hs| - 1])
  }

  function Crashes(hs: seq<Happening>): nat {
    if hs == [] then 0 else Crashes(hs[..|hs| - 1]) + if hs[|hs| - 1].RecordDone? then 0 else 1
  }

  /** The deliveries that were the first of their record. */
  function Firsts(delivered: seq<nat>): seq<nat> {
    if delivered == [] then []
    else
      var earlier := delivered[..|delivered| - 1];
      var o := delivered[|delivered| - 1];
      Firsts(earlier) + if o in earlier then [] else [o]
  }

  /** 0, 1, ..., n - 1 */
  function UpTo(n: nat): seq<nat> {
    seq(n, i => i)
  }

  /** Firsts are the offsets from 0 on without a gap, and contain what is delivered. */
  ghost predicate InOrder(delivered: seq<nat>) {
    && Firsts(delivered) == UpTo(|Firsts(delivered)|)
    && forall o: nat :: o in delivered <==> o < |Firsts(delivered)|
  }

  ghost predicate OffsetsOk(o: Offsets, threshold: nat, crashes: nat) {
    && o.committed <= o.resolved <= |Firsts(o.delivered)|
    && o.resolved - o.committed < threshold
    && InOrder(o.delivered)
    && |o.delivered| <= o.resolved + crashes * threshold
  }

  lemma DeliveringNextKeepsOrder(delivered: seq<nat>, o: nat)
    requires InOrder(delivered) && o <= |Firsts(delivered)|
    ensures InOrder(delivered + [o])
    ensures |Firsts(delivered + [o])| == if o < |Firsts(delivered)| then |Firsts(delivered)| else o + 1
  {
    hide Firsts, UpTo;
    FirstsAppend(delivered, o);
    UpToAppend(|Firsts(delivered)|);
    assert forall n: nat :: n in delivered + [o] <==> n in delivered || n == o;
  }

  lemma FirstsAppend(delivered: seq<nat>, o: nat)
    ensures Firsts(delivered + [o]) == Firsts(delivered) + if o in delivered then [] else [o]
  {
    assert (delivered + [o])[..|delivered|] == delivered;
  }

  lemma UpToAppend(n: nat)
    ensures UpTo(n) + [n] == UpTo(n + 1)
  {}

  lemma HappeningKeepsOffsets(o: Offsets, threshold: nat, h: Happening, crashes: nat)
    requires OffsetsOk(o, threshold, crashes) && threshold > 0
    ensures OffsetsOk(Happens(o, threshold, h), threshold, crashes + if h.RecordDone? then 0 else 1)
  {
    assert (crashes + 1) * threshold == crashes * threshold + threshold;
    DeliveringNextKeepsOrder(o.delivered, o.resolved);
  }

  lemma {:induction false} OffsetsStayOk(threshold: nat, hs: seq<Happening>)
    requires threshold > 0
    ensures OffsetsOk(Happened(threshold, hs), threshold, Crashes(hs))
  {
    if hs != [] {
      OffsetsStayOk(threshold, hs[..|hs| - 1]);
      HappeningKeepsOffsets(Happened(threshold, hs[..|hs| - 1]), threshold, hs[|hs| - 1], Crashes(hs[..|hs| - 1]));
    }
  }

  /**
   * Whatever batches, stops and crashes there were: records are first delivered in offset order
   * without a gap, everything below the committed offset has been delivered, and each crash costs
   * at most threshold redeliveries.
   */
  lemma NothingIsLostAndLittleRepeated(threshold: nat, hs: seq<Happening>)
    requires threshold > 0
    ensures var o := Happened(threshold, hs); var n := |Firsts(o.delivered)|;
            && Firsts(o.delivered) == UpTo(n)
            && o.committed <= n && (forall i: nat | i < o.committed :: i in o.delivered)
            && |o.delivered| - n <= Crashes(hs) * threshold
  {
    OffsetsStayOk(threshold, hs);
  }

  /** n records without a crash. */
  function Calm(n: nat): seq<Happening> {
    if n == 0 then [] else Calm(n - 1) + [RecordDone]
  }

  /** Batches are nothing but their records: where they end makes no difference. */
  lemma {:induction false} ABatchIsItsRecords(threshold: nat, hs: seq<Happening>, n: nat)
    ensures Happened(threshold, hs + Calm(n)) == Records(Happened(threshold, hs), threshold, n)
  {
    if n == 0 {
      assert hs + [] == hs;
    } else {
      ABatchIsItsRecords(threshold, hs, n - 1);
      var all := hs + Calm(n);
      assert all == (hs + Calm(n - 1)) + [RecordDone];
      assert all[..|all| - 1] == hs + Calm(n - 1);
    }
  }

  /** Without a crash every record is delivered exactly once, in order. */
  lemma {:induction false} CrashFreeIsExactlyOnce(threshold: nat, hs: seq<Happening>)
    requires Crashes(hs) == 0
    ensures Happened(threshold, hs).delivered == UpTo(|hs|) && Happened(threshold, hs).resolved == |hs|
  {
    if hs != [] {
      CrashFreeIsExactlyOnce(threshold, hs[..|hs| - 1]);
      assert UpTo(|hs| - 1) + [|hs| - 1] == UpTo(|hs|);
    }
  }

  lemma {:induction false} RecordsAdd(o: Offsets, threshold: nat, n: nat)
    requires threshold > 0 && o.resolved >= o.committed && o.resolved + n - o.committed < threshold
    ensures Records(o, threshold, n).committed == o.committed && Records(o, threshold, n).resolved == o.resolved + n
    ensures Records(o, threshold, n).delivered == o.delivered + seq(n, i requires 0 <= i < n => o.resolved + i)
  {
    if n > 0 { RecordsAdd(o, threshold, n - 1); }
  }

  /** The bound is met: a crash after the delivery that would have filled the threshold repeats all of it. */
  lemma ACrashCanCostTheWholeThreshold(o: Offsets, threshold: nat)
    requires threshold > 0 && o.resolved == o.committed
    ensures var end := Happens(Records(o, threshold, threshold - 1), threshold, CrashAfterDelivery);
            && end.resolved == o.resolved
            && |end.delivered| == |o.delivered| + threshold
  {
    RecordsAdd(o, threshold, threshold - 1);
  }

  // ---------------------------------------------------------------- redeliveries and the tables

  /** An earlier delivery of this record went through. */
  predicate WentThrough(delivered: seq<nat>, done: seq<Delivery>, o: nat)
    requires |delivered| == |done|
  {
    exists j | 0 <= j < |done| :: done[j].Processed? && delivered[j] == o
  }

  /** Of each record the run of its first delivery that went through. */
  function FirstRuns(delivered: seq<nat>, done: seq<Delivery>): seq<Attempt>
    requires |delivered| == |done|
  {
    if done == [] then []
    else
      var n := |done| - 1;
      FirstRuns(delivered[..n], done[..n]) +
      if done[n].Processed? && !WentThrough(delivered[..n], done[..n], delivered[n]) then [done[n].attempt] else []
  }

  /** These are deliveries of these records, from these tables on. */
  ghost predicate Deliveries(events: map<int, Event>, db: Db, log: seq<Record>, delivered: seq<nat>, done: seq<Delivery>) {
    && |delivered| == |done|
    && (forall i | 0 <= i < |done| :: delivered[i] < |log| && Fits(done[i], log[delivered[i]]))
    && forall i | 0 <= i < |done| :: LeftARow(events, db, done, i)
  }

  lemma KeyStays(events: map<int, Event>, db: Db, a: Attempt, k: Key)
    requires HasKey(db.coupons, k)
    ensures HasKey(Issue(events, db, a).coupons, k)
  {
    var i :| 0 <= i < |db.coupons| && CouponKey(db.coupons[i]) == k;
    assert CouponKey(Issue(events, db, a).coupons[i]) == k;
  }

  lemma EarlierToo(events: map<int, Event>, db: Db, log: seq<Record>, delivered: seq<nat>, done: seq<Delivery>)
    requires Deliveries(events, db, log, delivered, done) && done != []
    ensures Deliveries(events, db, log, delivered[..|done| - 1], done[..|done| - 1])
  {
    hide IssueAll, HasKey, Effects;
    var n := |done| - 1;
    forall i | 0 <= i < n ensures LeftARow(events, db, done[..n], i) {
      assert LeftARow(events, db, done, i) && done[..n][..i + 1] == done[..i + 1];
    }
  }

  /** Whoever's record went through has a row from then on. */
  lemma {:induction false} RowsAreKept(events: map<int, Event>, db: Db, log: seq<Record>, delivered: seq<nat>,
                                       done: seq<Delivery>, j: nat)
    requires Deliveries(events, db, log, delivered, done) && j < |done| && done[j].Processed?
    ensures HasKey(IssueAll(events, db, Effects(done)).coupons, AttemptKey(done[j].attempt))
    decreases |done|
  {
    hide IssueAll, HasKey, Issue, Effects;
    var n := |done| - 1;
    if j == n {
      assert LeftARow(events, db, done, n) && done[..n + 1] == done;
    } else {
      EarlierToo(events, db, log, delivered, done);
      RowsAreKept(events, db, log, delivered[..n], done[..n], j);
      EffectsAppend(events, db, done[..n], done[n]);
      assert done[..n] + [done[n]] == done;
      if done[n].Processed? {
        KeyStays(events, IssueAll(events, db, Effects(done[..n])), done[n].attempt, AttemptKey(done[j].attempt));
      }
    }
  }

  lemma RefusedAgain(events: map<int, Event>, db: Db, a: Attempt)
    requires HasKey(db.coupons, AttemptKey(a))
    ensures Issue(events, db, a) == db
  {}

  lemma RunsAppend(events: map<int, Event>, db: Db, runs: seq<Attempt>, a: Attempt)
    ensures IssueAll(events, db, runs + [a]) == Issue(events, IssueAll(events, db, runs), a)
  {
    assert (runs + [a])[..|runs|] == runs;
  }

  /**
   * At least once on the topic is exactly once in the tables: however often records are delivered,
   * skipped or given up on in between, the tables are as if of each record only the first delivery
   * that went through had been made. Whether the consumer was told does not matter: a try that threw
   * although its commit went through counts as one more delivery of its record.
   */
  lemma {:induction false} RedeliveriesLeaveNoTrace(events: map<int, Event>, db: Db, log: seq<Record>,
                                                    delivered: seq<nat>, done: seq<Delivery>)
    requires Deliveries(events, db, log, delivered, done)
    ensures IssueAll(events, db, Effects(done)) == IssueAll(events, db, FirstRuns(delivered, done))
    decreases |done|
  {
    hide IssueAll, HasKey, Issue, Effects;
    if done == [] {
      NoDeliveries(delivered, done);
    } else {
      var n := |done| - 1;
      EarlierToo(events, db, log, delivered, done);
      RedeliveriesLeaveNoTrace(events, db, log, delivered[..n], done[..n]);
      EffectsAppend(events, db, done[..n], done[n]);
      assert done[..n] + [done[n]] == done;
      var firsts := FirstRuns(delivered[..n], done[..n]);
      if done[n].Processed? && WentThrough(delivered[..n], done[..n], delivered[n]) {
        var j :| 0 <= j < n && done[j].Processed? && delivered[j] == delivered[n];
        RowsAreKept(events, db, log, delivered[..n], done[..n], j);
        SameRecord(log, delivered, done, j, n);
        RefusedAgain(events, IssueAll(events, db, Effects(done[..n])), done[n].attempt);
        assert firsts + [] == firsts;
      } else if done[n].Processed? {
        RunsAppend(events, db, firsts, done[n].attempt);
      } else {
        assert firsts + [] == firsts;
      }
    }
  }

  lemma NoDeliveries(delivered: seq<nat>, done: seq<Delivery>)
    requires |delivered| == |done| == 0
    ensures Effects(done) == [] && FirstRuns(delivered, done) == []
  {}

  lemma SameRecord(log: seq<Record>, delivered: seq<nat>, done: seq<Delivery>, j: nat, n: nat)
    requires j < |done| && n < |done| && |delivered| == |done| && delivered[j] == delivered[n] < |log|
    requires done[j].Processed? && done[n].Processed?
    requires Fits(done[j], log[delivered[j]]) && Fits(done[n], log[delivered[n]])
    ensures AttemptKey(done[j].attempt) == AttemptKey(done[n].attempt)
  {}
}
