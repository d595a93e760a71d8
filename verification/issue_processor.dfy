/**
 * The tables of server-c as the repositories change them, one statement at a time and in place.
 */
module Repositories {
  import opened Payloads
  import opened CouponDb

  /** The stock aggregate: loaded from its row, counted down in memory, written back. */
  class CouponTypeInventory {
    const key: StockKey
    const totalInventory: int
    var availableCount: int

    constructor Reconstitute(key: StockKey, row: Stock)
      ensures this.key == key && totalInventory == row.total && availableCount == row.available
    {
      this.key := key;
      totalInventory := row.total;
      availableCount := row.available;
    }

    method Decrement() returns (taken: bool)
      modifies this`availableCount
      ensures taken <==> old(availableCount) > 0
      ensures availableCount == old(availableCount) - if taken then 1 else 0
    {
      if availableCount <= 0 { return false; }
      availableCount := availableCount - 1;
      return true;
    }

    predicate IsDepleted()
      reads this
    {
      availableCount == 0
    }
  }

  datatype InsertOutcome = Inserted | DuplicateCode | DuplicateUserCoupon

  class Tables {
    var stock: map<StockKey, Stock>
    var coupons: seq<Coupon>
    var outbox: seq<OutboxRow>

    function Contents(): Db
      reads this
    {
      Db(stock, coupons, outbox)
    }

    constructor (db: Db)
      ensures Contents() == db
    {
      stock, coupons, outbox := db.stock, db.coupons, db.outbox;
    }

    /** What a rollback does. */
    method Restore(db: Db)
      modifies this
      ensures Contents() == db
    {
      stock, coupons, outbox := db.stock, db.coupons, db.outbox;
    }

    method FindForUpdate(k: StockKey) returns (inventory: CouponTypeInventory?)
      ensures inventory == null <==> k !in stock
      ensures inventory != null ==>
                && fresh(inventory) && inventory.key == k
                && inventory.totalInventory == stock[k].total && inventory.availableCount == stock[k].available
    {
      if k !in stock { return null; }
      inventory := new CouponTypeInventory.Reconstitute(k, stock[k]);
    }

    /** Writes the count as an absolute value: no row comes or goes, and no total or other row changes. */
    method UpdateAvailableCount(inventory: CouponTypeInventory)
      modifies this`stock
      ensures stock.Keys == old(stock).Keys
      ensures forall k | k in stock :: stock[k].total == old(stock)[k].total
      ensures forall k | k in stock ::
                stock[k].available == if k == inventory.key then inventory.availableCount else old(stock)[k].available
    {
      if inventory.key in stock {
        stock := stock[inventory.key := stock[inventory.key].(available := inventory.availableCount)];
      }
    }

    /** The code index is declared first and therefore checked first. */
    method InsertCoupon(c: Coupon) returns (outcome: InsertOutcome)
      modifies this`coupons
      ensures outcome.DuplicateCode? <==> HasCode(old(coupons), c.code)
      ensures outcome.DuplicateUserCoupon? <==> !HasCode(old(coupons), c.code) && HasKey(old(coupons), CouponKey(c))
      ensures coupons == if outcome.Inserted? then old(coupons) + [c] else old(coupons)
    {
      if HasCode(coupons, c.code) { return DuplicateCode; }
      if HasKey(coupons, CouponKey(c)) { return DuplicateUserCoupon; }
      coupons := coupons + [c];
      return Inserted;
    }

    method Append(payload: ResultPayload)
      modifies this`outbox
      ensures outbox == old(outbox) + [OutboxRow(payload, false)]
    {
      outbox := outbox + [OutboxRow(payload, false)];
    }

    /** The conditional UPDATE; it tells how many rows it changed. */
    method MarkCouponUsed(row: nat, expectedVersion: nat, usedAt: int) returns (affected: nat)
      modifies this`coupons
      ensures coupons == MarkUsed(old(coupons), row, expectedVersion, usedAt)
      ensures affected == 1 <==> row < |old(coupons)| && old(coupons)[row].version == expectedVersion
      ensures affected == 0 ==> coupons == old(coupons)
      ensures affected <= 1
    {
      if row < |coupons| && coupons[row].version == expectedVersion {
        var c := coupons[row];
        coupons := coupons[row := c.(status := Used, usedAt := Some(usedAt), version := c.version + 1)];
        return 1;
      }
      return 0;
    }

    /** One UPDATE for all ids: a record is published after it exactly when it was or is one of them. */
    method MarkRowsPublished(ids: seq<nat>)
      modifies this`outbox
      ensures |outbox| == |old(outbox)|
      ensures forall i | 0 <= i < |outbox| ::
                && outbox[i].payload == old(outbox)[i].payload
                && (outbox[i].published <==> old(outbox)[i].published || i in ids)
      ensures outbox == MarkPublished(old(outbox), set i | i in ids)
    {
      outbox := MarkPublished(outbox, set i | i in ids);
    }
  }

  /** The sold-out keys in Redis: presence is the whole message. */
  class CouponAvailabilityCache {
    var soldOut: set<StockKey>

    constructor ()
      ensures soldOut == {}
    {
      soldOut := {};
    }

    /** Best effort: a failed SET is logged and forgotten. */
    method MarkSoldOut(k: StockKey, reachable: bool)
      modifies this
      ensures old(soldOut) <= soldOut && (reachable ==> k in soldOut)
      ensures forall j | j in soldOut :: j in old(soldOut) || (reachable && j == k)
    {
      if reachable { soldOut := soldOut + {k}; }
    }
  }
}

/**
 * CouponIssueProcessor.process, statement by statement over the tables it changes in place.
 *
 * The exists check reads the transaction's snapshot, which may lack rows that were committed since:
 * missed names the keys whose rows it lacks. Everything else reads the latest state. broken names
 * the statements that fail.
 */
module IssueProcessor {
  import opened Payloads
  import opened CouponDb
  import opened Repositories

  datatype Statement =
    | ExistsQuery | EventQuery | StockQuery | StockUpdate | CouponInsert | OutboxInsert | CommitTx
    | StockRead | CacheSet

  datatype TxError = DuplicateUserCouponError | EventNotFound | InventoryNotFound | CodeTaken | DatabaseError

  datatype End = Returned | Threw(error: TxError)

  predicate SeesRow(db: Db, missed: set<Key>, k: Key) {
    HasKey(db.coupons, k) && k !in missed
  }

  /** The insert of the row, the outbox record or the commit throws; a duplicate user coupon does not count. */
  predicate SaveThrows(db: Db, a: Attempt, status: CouponStatus, broken: set<Statement>) {
    || CouponInsert in broken || HasCode(db.coupons, CodeFor(a, status))
    || (!HasKey(db.coupons, AttemptKey(a)) && (OutboxInsert in broken || CommitTx in broken))
  }

  /** One of the statements the run comes to fails, or it finds no event, no stock row or its code taken. */
  predicate Throws(events: map<int, Event>, db: Db, missed: set<Key>, a: Attempt, broken: set<Statement>) {
    || ExistsQuery in broken
    || if SeesRow(db, missed, AttemptKey(a)) then CommitTx in broken
       else
         || EventQuery in broken || a.req.eventId !in events
         || if !events[a.req.eventId].IsActive(a.now) then SaveThrows(db, a, Failed, broken)
            else
              || StockQuery in broken || AttemptStockKey(a) !in db.stock
              || if db.stock[AttemptStockKey(a)].available <= 0 then SaveThrows(db, a, SoldOut, broken)
                 else StockUpdate in broken || SaveThrows(db, a, Success, broken)
  }

  /** The body asked for the stock check after the commit. */
  predicate StockWasDecided(before: Db, after: Db) {
    |after.coupons| > |before.coupons| && !after.coupons[|after.coupons| - 1].status.Failed?
  }

  lemma IssueAppends(events: map<int, Event>, db: Db, a: Attempt)
    ensures var db' := Issue(events, db, a);
            !NothingToWrite(events, db, a) ==>
              && |db'.coupons| == |db.coupons| + 1 && |db'.outbox| == |db.outbox| + 1
              && IsIssueOf(events, a, db'.coupons[|db.coupons|], db'.outbox[|db.outbox|].payload)
  {
    hide Issue, IsIssueOf, NothingToWrite;
    WhatAnIssueDoes(events, db, a);
  }

  /** Statements that fail after the commit do not make the run throw. */
  predicate OnlyAfterwards(broken: set<Statement>) {
    forall st | st in broken :: st == StockRead || st == CacheSet
  }

  /**
   * When a run throws. Without a failing statement: when its snapshot shows no row and it finds no
   * event, in the event's time no stock row, or its code taken. And with one, whenever it comes to it.
   */
  lemma WhenARunThrows(events: map<int, Event>, db: Db, missed: set<Key>, a: Attempt, broken: set<Statement>)
    ensures var shown := HasRowFor(db.coupons, a.req.userId, a.req.couponTypeId) &&
                         Key(a.req.userId, a.req.couponTypeId) !in missed;
            var k := StockKey(a.req.eventId, a.req.couponTypeId);
            var throws := Throws(events, db, missed, a, broken);
            && (ExistsQuery in broken || (shown && CommitTx in broken) || (!shown && EventQuery in broken) ==> throws)
            && (!shown && a.req.eventId !in events ==> throws)
            && (!shown && CouponInsert in broken ==> throws)
            && (!HasRowFor(db.coupons, a.req.userId, a.req.couponTypeId)
                && (OutboxInsert in broken || CommitTx in broken)
                ==> throws)
            && (!shown && a.req.eventId in events && !OutsideItsTime(events[a.req.eventId], a.now) ==>
                  && (StockQuery in broken || k !in db.stock ==> throws)
                  && (k in db.stock && db.stock[k].available > 0 && StockUpdate in broken ==> throws))
            && (OnlyAfterwards(broken) ==>
                  (throws <==>
                     && !shown
                     && (|| a.req.eventId !in events
                         || if OutsideItsTime(events[a.req.eventId], a.now) then HasCode(db.coupons, ShortId(a))
                            else || k !in db.stock
                                 || HasCode(db.coupons, if db.stock[k].available > 0 then a.code else ShortId(a)))))
  {
    HasRowForIsHasKey(db.coupons, a.req.userId, a.req.couponTypeId);
    assert CodeFor(a, SoldOut) == ShortId(a) && CodeFor(a, Failed) == ShortId(a) && CodeFor(a, Success) == a.code;
    hide HasRowFor, HasKey, HasCode, ShortId, CodeFor;
  }

  predicate Depleted(db: Db, k: StockKey) {
    k in db.stock && db.stock[k].available == 0
  }

  class CouponIssueProcessor {
    const events: map<int, Event>
    const tables: Tables
    const cache: CouponAvailabilityCache

    constructor (events: map<int, Event>, tables: Tables, cache: CouponAvailabilityCache)
      ensures this.events == events && this.tables == tables && this.cache == cache
    {
      this.events, this.tables, this.cache := events, tables, cache;
    }

    /**
     * All or nothing: a run that returns normally leaves the tables exactly as the reference does,
     * whatever its snapshot missed, and its user has a row; one that throws leaves them as they were.
     */
    method Process(a: Attempt, missed: set<Key>, broken: set<Statement>) returns (end: End)
      modifies tables, cache
      ensures end.Threw? <==> Throws(events, old(tables.Contents()), missed, a, broken)
      ensures tables.Contents() ==
              if end.Returned? then Issue(events, old(tables.Contents()), a) else old(tables.Contents())
      ensures broken == {} ==> tables.Contents() == Issue(events, old(tables.Contents()), a)
      ensures end.Returned? ==> HasKey(tables.coupons, AttemptKey(a))
      ensures end.Returned? && !NothingToWrite(events, old(tables.Contents()), a) ==>
                && |tables.coupons| == |old(tables.coupons)| + 1 && |tables.outbox| == |old(tables.outbox)| + 1
                && IsIssueOf(events, a, tables.coupons[|old(tables.coupons)|], tables.outbox[|old(tables.outbox)|].payload)
      ensures end != Threw(DuplicateUserCouponError)
      ensures cache.soldOut == old(cache.soldOut) +
                if && StockWasDecided(old(tables.Contents()), tables.Contents())
                   && Depleted(tables.Contents(), AttemptStockKey(a)) && StockRead !in broken && CacheSet !in broken
                then {AttemptStockKey(a)} else {}
    {
      var before := tables.Contents();
      IssueAppends(events, before, a);
      hide IsIssueOf, NothingToWrite;
      var inner, checkAvailability := RunIssueTransaction(a, missed, broken);
      if inner.Threw? {
        tables.Restore(before);
        // A duplicate found by the UNIQUE key is the idempotent end; anything else goes to the consumer.
        return if inner.error.DuplicateUserCouponError? then Returned else inner;
      }
      if checkAvailability {
        MarkSoldOutIfDepleted(AttemptStockKey(a), broken);
      }
      return Returned;
    }

    method RunIssueTransaction(a: Attempt, missed: set<Key>, broken: set<Statement>)
        returns (end: End, checkAvailability: bool)
      modifies tables
      ensures end.Returned? ==> tables.Contents() == Issue(events, old(tables.Contents()), a)
      ensures end.Returned? ==> HasKey(tables.coupons, AttemptKey(a))
      ensures end == Threw(DuplicateUserCouponError) ==> HasKey(old(tables.coupons), AttemptKey(a))
      ensures end.Threw? && !end.error.DuplicateUserCouponError? <==>
              Throws(events, old(tables.Contents()), missed, a, broken)
      ensures end.Returned? ==>
                (checkAvailability <==> StockWasDecided(old(tables.Contents()), tables.Contents()))
    {
      checkAvailability := false;
      if ExistsQuery in broken { return Threw(DatabaseError), checkAvailability; }
      if SeesRow(tables.Contents(), missed, AttemptKey(a)) {
        return if CommitTx in broken then Threw(DatabaseError) else Returned, checkAvailability;
      }
      if EventQuery in broken { return Threw(DatabaseError), checkAvailability; }
      if a.req.eventId !in events { return Threw(EventNotFound), checkAvailability; }
      if !events[a.req.eventId].IsActive(a.now) {
        end := Save(a, Failed, broken);
        return end, checkAvailability;
      }
      if StockQuery in broken { return Threw(DatabaseError), checkAvailability; }
      var inventory := tables.FindForUpdate(AttemptStockKey(a));
      if inventory == null { return Threw(InventoryNotFound), checkAvailability; }
      var taken := inventory.Decrement();
      if !taken {
        end := Save(a, SoldOut, broken);
        return end, true;
      }
      if StockUpdate in broken { return Threw(DatabaseError), checkAvailability; }
      tables.UpdateAvailableCount(inventory);
      end := Save(a, Success, broken);
      return end, true;
    }

    /** The result row, the outbox record and the commit. */
    method Save(a: Attempt, status: CouponStatus, broken: set<Statement>) returns (end: End)
      modifies tables
      ensures end.Returned? ==>
                && !HasKey(old(tables.coupons), AttemptKey(a)) && !HasCode(old(tables.coupons), CodeFor(a, status))
                && tables.Contents() == Db(old(tables.stock), old(tables.coupons) + [CouponFor(a, status)],
                                           old(tables.outbox) + [OutboxRow(ToResultPayload(a, status), false)])
      ensures end.Returned? ==> HasKey(tables.coupons, AttemptKey(a))
      ensures end == Threw(DuplicateUserCouponError) ==> HasKey(old(tables.coupons), AttemptKey(a))
      ensures end.Threw? && !end.error.DuplicateUserCouponError? <==>
              SaveThrows(old(tables.Contents()), a, status, broken)
    {
      if CouponInsert in broken { return Threw(DatabaseError); }
      var outcome := tables.InsertCoupon(CouponFor(a, status));
      match outcome
      case DuplicateCode => return Threw(CodeTaken);
      case DuplicateUserCoupon => return Threw(DuplicateUserCouponError);
      case Inserted =>
        assert CouponKey(tables.coupons[|tables.coupons| - 1]) == AttemptKey(a);
        if OutboxInsert in broken { return Threw(DatabaseError); }
        tables.Append(ToResultPayload(a, status));
        return if CommitTx in broken then Threw(DatabaseError) else Returned;
    }

    /** A fresh read after the commit; whatever fails here is swallowed. */
    method MarkSoldOutIfDepleted(k: StockKey, broken: set<Statement>)
      modifies cache
      ensures cache.soldOut == old(cache.soldOut) +
                if Depleted(tables.Contents(), k) && StockRead !in broken && CacheSet !in broken then {k} else {}
    {
      if StockRead in broken { return; }
      if k in tables.stock {
        var latest := new CouponTypeInventory.Reconstitute(k, tables.stock[k]);
        if latest.IsDepleted() { cache.MarkSoldOut(k, CacheSet !in broken); }
      }
    }
  }

  // ---------------------------------------------------------------- the exists check is a shortcut

  /** A message and whether the snapshot of its transaction misses a row its key may have. */
  datatype Message = Message(attempt: Attempt, missesRow: bool)

  /** The transaction as it is: exists check on the snapshot, decision, insert under the UNIQUE keys, rollback. */
  function Transaction(events: map<int, Event>, db: Db, m: Message): Db {
    var a := m.attempt;
    if HasKey(db.coupons, AttemptKey(a)) && !m.missesRow then db
    else UniqueOnly(events, db, a)
  }

  /** The transaction without its exists check. */
  function UniqueOnly(events: map<int, Event>, db: Db, a: Attempt): Db {
    var d := Decide(events, db.stock, a);
    if d.Refused? then db
    else
      var written := Write(db, a, d.status, if d.status.Success? then db.stock[AttemptStockKey(a)].available else 0);
      if HasCode(db.coupons, CodeFor(a, d.status)) || HasKey(db.coupons, AttemptKey(a)) then db else written
  }

  function TransactAll(events: map<int, Event>, db: Db, messages: seq<Message>): Db {
    if messages == [] then db
    else Transaction(events, TransactAll(events, db, messages[..|messages| - 1]), messages[|messages| - 1])
  }

  function UniqueOnlyAll(events: map<int, Event>, db: Db, messages: seq<Message>): Db {
    if messages == [] then db
    else UniqueOnly(events, UniqueOnlyAll(events, db, messages[..|messages| - 1]), messages[|messages| - 1].attempt)
  }

  function Attempts(messages: seq<Message>): seq<Attempt> {
    if messages == [] then [] else Attempts(messages[..|messages| - 1]) + [messages[|messages| - 1].attempt]
  }

  /**
   * For every sequence of messages, and whatever each snapshot missed: running with the exists check
   * and running on the UNIQUE keys alone leave the same tables, those of the reference.
   */
  lemma {:induction false} TheCheckIsOnlyAShortcut(events: map<int, Event>, db: Db, messages: seq<Message>)
    ensures TransactAll(events, db, messages) == UniqueOnlyAll(events, db, messages)
    ensures TransactAll(events, db, messages) == IssueAll(events, db, Attempts(messages))
  {
    if messages != [] {
      var before := messages[..|messages| - 1];
      TheCheckIsOnlyAShortcut(events, db, before);
      assert Attempts(messages)[..|Attempts(before)|] == Attempts(before);
    }
  }

  // ---------------------------------------------------------------- redelivery

  /** One message after the other. */
  function IssueAll(events: map<int, Event>, db: Db, messages: seq<Attempt>): Db {
    if messages == [] then db
    else Issue(events, IssueAll(events, db, messages[..|messages| - 1]), messages[|messages| - 1])
  }

  /** The messages whose key has no row yet when their turn comes. */
  function FirstOnly(events: map<int, Event>, db: Db, messages: seq<Attempt>): seq<Attempt> {
    if messages == [] then []
    else
      var earlier := messages[..|messages| - 1];
      var a := messages[|messages| - 1];
      FirstOnly(events, db, earlier) + if HasKey(IssueAll(events, db, earlier).coupons, AttemptKey(a)) then [] else [a]
  }

  lemma {:induction false} IssueInTwoParts(events: map<int, Event>, db: Db, xs: seq<Attempt>, ys: seq<Attempt>)
    ensures IssueAll(events, db, xs + ys) == IssueAll(events, IssueAll(events, db, xs), ys)
  {
    if ys == [] {
      assert xs + ys == xs;
    } else {
      var n := |ys| - 1;
      IssueInTwoParts(events, db, xs, ys[..n]);
      hide Issue;
      assert (xs + ys)[..|xs| + n] == xs + ys[..n];
    }
  }

  lemma {:induction false} RowsStay(events: map<int, Event>, db: Db, messages: seq<Attempt>)
    ensures db.coupons <= IssueAll(events, db, messages).coupons
  {
    if messages != [] { RowsStay(events, db, messages[..|messages| - 1]); }
  }

  /** Dropping every message whose key already has a row leaves the tables exactly as they would be. */
  lemma {:induction false} DroppingDuplicatesChangesNothing(events: map<int, Event>, db: Db, messages: seq<Attempt>)
    ensures IssueAll(events, db, FirstOnly(events, db, messages)) == IssueAll(events, db, messages)
  {
    if messages != [] {
      var earlier, a := messages[..|messages| - 1], messages[|messages| - 1];
      DroppingDuplicatesChangesNothing(events, db, earlier);
      if !HasKey(IssueAll(events, db, earlier).coupons, AttemptKey(a)) {
        assert (FirstOnly(events, db, earlier) + [a])[..|FirstOnly(events, db, earlier)|] == FirstOnly(events, db, earlier);
      } else {
        assert FirstOnly(events, db, messages) == FirstOnly(events, db, earlier);
      }
    }
  }

  lemma OneRefused(events: map<int, Event>, db: Db, again: Attempt)
    requires HasKey(db.coupons, AttemptKey(again))
    ensures IssueAll(events, db, [again]) == db
  {
    assert [again][..0] == [];
  }

  /** However much later a message comes again, deleting it leaves the final tables unchanged. */
  lemma RedeliveryIsHarmless(events: map<int, Event>, db: Db, before: seq<Attempt>, meanwhile: seq<Attempt>,
                             again: Attempt, rest: seq<Attempt>)
    requires HasKey(IssueAll(events, db, before).coupons, AttemptKey(again))
    ensures IssueAll(events, db, before + meanwhile + [again] + rest) == IssueAll(events, db, before + meanwhile + rest)
  {
    var db1 := IssueAll(events, db, before);
    var db2 := IssueAll(events, db1, meanwhile);
    RowsStay(events, db1, meanwhile);
    assert HasKey(db2.coupons, AttemptKey(again)) by {
      var i :| 0 <= i < |db1.coupons| && CouponKey(db1.coupons[i]) == AttemptKey(again);
      assert CouponKey(db2.coupons[i]) == AttemptKey(again);
    }
    OneRefused(events, db2, again);
    hide Issue, IssueAll, HasKey;
    IssueInTwoParts(events, db, before, meanwhile);
    IssueInTwoParts(events, db, before + meanwhile, [again]);
    IssueInTwoParts(events, db, before + meanwhile + [again], rest);
    IssueInTwoParts(events, db, before + meanwhile, rest);
  }

  /**
   * What would be committed if the duplicate were caught inside the transaction: the decrement
   * stays and no coupon comes with it.
   */
  function SwallowedInside(events: map<int, Event>, db: Db, a: Attempt): Db {
    var k := AttemptStockKey(a);
    if Decide(events, db.stock, a) == Decided(Success) && k in db.stock
    then db.(stock := db.stock[k := db.stock[k].(available := db.stock[k].available - 1)])
    else db
  }

  /** Why the exception has to leave the transaction: swallowed inside, it leaks stock whenever stock was left. */
  lemma SwallowingInsideLeaksStock(events: map<int, Event>, db: Db, a: Attempt)
    requires TablesOk(db) && HasKey(db.coupons, AttemptKey(a))
    ensures Conserved(Issue(events, db, a))
    ensures Conserved(SwallowedInside(events, db, a)) <==> Decide(events, db.stock, a) != Decided(Success)
  {
    var k := AttemptStockKey(a);
    var leaked := SwallowedInside(events, db, a);
    if Decide(events, db.stock, a) == Decided(Success) {
      assert k in leaked.stock && leaked.coupons == db.coupons;
      assert db.stock[k].available + Count(db.coupons, k, IsGranted) == db.stock[k].total;
    }
  }
}
