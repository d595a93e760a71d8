/**
 * The tables of server-c and the effect one committed operation has on them.
 *
 * Issue is the reference: what processing one request does when nothing else runs. The concurrent
 * machine in ServerC and the in-place CouponIssueProcessor are both proved to produce exactly it.
 */
module CouponDb {
  import opened Payloads

  datatype CouponStatus = Success | SoldOut | Failed | Used

  /** Both ends belong to the event; its lifecycle status is not consulted. */
  datatype Event = Event(startedAt: int, endedAt: int) {
    predicate IsActive(now: int) {
      startedAt <= now <= endedAt
    }
  }

  datatype StockKey = StockKey(eventId: int, couponTypeId: int)

  datatype Stock = Stock(total: int, available: int)

  /** A user_coupon row; its primary key is its position in the table. */
  datatype Coupon = Coupon(
    code: string,
    userId: int,
    eventId: int,
    couponTypeId: int,
    status: CouponStatus,
    issuedAt: int,
    usedAt: Option<int>,
    version: nat)

  /** An outbox_event row; aggregate_id is the payload's requestId. */
  datatype OutboxRow = OutboxRow(payload: ResultPayload, published: bool)

  datatype Db = Db(stock: map<StockKey, Stock>, coupons: seq<Coupon>, outbox: seq<OutboxRow>)

  /** One run of the issue transaction: the request, the clock it read and the code it drew. */
  datatype Attempt = Attempt(req: RequestPayload, now: int, code: string)

  function CouponKey(c: Coupon): Key {
    Key(c.userId, c.couponTypeId)
  }

  function CouponStockKey(c: Coupon): StockKey {
    StockKey(c.eventId, c.couponTypeId)
  }

  function AttemptKey(a: Attempt): Key {
    RequestKey(a.req)
  }

  function AttemptStockKey(a: Attempt): StockKey {
    StockKey(a.req.eventId, a.req.couponTypeId)
  }

  /** existsByUserIdAndCouponTypeId */
  predicate HasKey(cs: seq<Coupon>, k: Key) {
    exists i | 0 <= i < |cs| :: CouponKey(cs[i]) == k
  }

  predicate HasCode(cs: seq<Coupon>, code: string) {
    exists i | 0 <= i < |cs| :: cs[i].code == code
  }

  /** Rows that took stock: a used coupon is an issued one. */
  predicate Granted(c: Coupon) {
    c.status.Success? || c.status.Used?
  }

  function PlaceholderCode(requestId: string): string {
    "X" + requestId[..if |requestId| < 11 then |requestId| else 11]
  }

  function CodeFor(a: Attempt, status: CouponStatus): string {
    if status.Success? then a.code
    else PlaceholderCode(if a.req.requestId.Some? then a.req.requestId.value else "")
  }

  function CouponFor(a: Attempt, status: CouponStatus): Coupon {
    Coupon(CodeFor(a, status), a.req.userId, a.req.eventId, a.req.couponTypeId, status, a.now, None, 0)
  }

  /** The wire status of a row; a used coupon was a success when its result was written. */
  function WireStatus(s: CouponStatus): ResultStatus {
    match s
    case Success => ResultSuccess
    case SoldOut => ResultSoldOut
    case Failed => ResultFailed
    case Used => ResultSuccess
  }

  function ToResultPayload(a: Attempt, status: CouponStatus): ResultPayload {
    ResultPayload(a.req.requestId, a.req.userId, a.req.eventId, a.req.couponTypeId,
                  Some(WireStatus(status)), if status.Success? then Some(a.code) else None, Some(a.now))
  }

  datatype Decision = Refused | Decided(status: CouponStatus)

  /** The branches of the transaction body after the duplicate check. */
  function Decide(events: map<int, Event>, stock: map<StockKey, Stock>, a: Attempt): Decision {
    if a.req.eventId !in events then Refused
    else if !events[a.req.eventId].IsActive(a.now) then Decided(Failed)
    else if AttemptStockKey(a) !in stock then Refused
    else if stock[AttemptStockKey(a)].available <= 0 then Decided(SoldOut)
    else Decided(Success)
  }

  /** All writes of one transaction; the new available count is written as an absolute value. */
  function Write(db: Db, a: Attempt, status: CouponStatus, available: int): Db {
    var k := AttemptStockKey(a);
    Db(if status.Success? && k in db.stock then db.stock[k := db.stock[k].(available := available - 1)] else db.stock,
       db.coupons + [CouponFor(a, status)],
       db.outbox + [OutboxRow(ToResultPayload(a, status), false)])
  }

  function Issue(events: map<int, Event>, db: Db, a: Attempt): Db {
    var d := Decide(events, db.stock, a);
    if HasKey(db.coupons, AttemptKey(a)) || d.Refused? || HasCode(db.coupons, CodeFor(a, d.status)) then db
    else Write(db, a, d.status, if d.status.Success? then db.stock[AttemptStockKey(a)].available else 0)
  }

  /** UPDATE ... SET status = 'USED' WHERE user_coupon_id = row AND version = version. */
  function MarkUsed(cs: seq<Coupon>, row: nat, version: nat, now: int): seq<Coupon> {
    if row < |cs| && cs[row].version == version
    then cs[row := cs[row].(status := Used, usedAt := Some(now), version := version + 1)]
    else cs
  }

  /** UPDATE ... SET status = 'PUBLISHED' WHERE outbox_event_id IN (ids). */
  function MarkPublished(outbox: seq<OutboxRow>, ids: set<nat>): seq<OutboxRow> {
    seq(|outbox|, i requires 0 <= i < |outbox| => if i in ids then outbox[i].(published := true) else outbox[i])
  }

  datatype Op =
    | IssueOp(attempt: Attempt)
    | RedeemOp(row: nat, version: nat, now: int)
    | MarkOp(ids: set<nat>)

  function ApplyOp(events: map<int, Event>, db: Db, op: Op): Db {
    match op
    case IssueOp(a) => Issue(events, db, a)
    case RedeemOp(row, version, now) => db.(coupons := MarkUsed(db.coupons, row, version, now))
    case MarkOp(ids) => db.(outbox := MarkPublished(db.outbox, ids))
  }

  /** One operation after the other, in log order. */
  function Replay(events: map<int, Event>, db: Db, log: seq<Op>): Db {
    if log == [] then db
    else ApplyOp(events, Replay(events, db, log[..|log| - 1]), log[|log| - 1])
  }

  // ---------------------------------------------------------------- what every table state keeps

  datatype Kind = IsGranted | IsTurnedAway

  predicate OfKind(c: Coupon, k: StockKey, kind: Kind) {
    CouponStockKey(c) == k && if kind.IsGranted? then Granted(c) else c.status.SoldOut?
  }

  function Count(cs: seq<Coupon>, k: StockKey, kind: Kind): nat {
    if cs == [] then 0
    else Count(cs[..|cs| - 1], k, kind) + if OfKind(cs[|cs| - 1], k, kind) then 1 else 0
  }

  /** availableCount plus the rows that took stock is the total, and nothing goes below zero. */
  ghost predicate Conserved(db: Db) {
    forall k | k in db.stock ::
      && 0 <= db.stock[k].available
      && db.stock[k].available + Count(db.coupons, k, IsGranted) == db.stock[k].total
  }

  /** One row per user and coupon type, one row per code. */
  ghost predicate OnePerUser(cs: seq<Coupon>) {
    forall i, j | 0 <= i < j < |cs| :: CouponKey(cs[i]) != CouponKey(cs[j]) && cs[i].code != cs[j].code
  }

  /** Nobody is turned away while stock remains. */
  ghost predicate SoldOutOnlyAtZero(db: Db) {
    forall i | 0 <= i < |db.coupons| && db.coupons[i].status.SoldOut? ::
      CouponStockKey(db.coupons[i]) in db.stock && db.stock[CouponStockKey(db.coupons[i])].available == 0
  }

  /** A row is used exactly when it has a use time, and that happens once. */
  predicate UseMarked(c: Coupon) {
    (c.status.Used? <==> c.usedAt.Some?) && c.version == (if c.status.Used? then 1 else 0)
  }

  /** The message tells the row's original status, and its code exactly when that was a success. */
  predicate Tells(p: ResultPayload, c: Coupon) {
    && ResultKey(p) == CouponKey(c) && p.eventId == c.eventId
    && p.status == Some(WireStatus(c.status))
    && p.couponCode == (if Granted(c) then Some(c.code) else None)
    && p.processedAt == Some(c.issuedAt)
    && ValidResult(p)
  }

  ghost predicate Chained(db: Db) {
    && |db.outbox| == |db.coupons|
    && forall i | 0 <= i < |db.coupons| :: Tells(db.outbox[i].payload, db.coupons[i])
  }

  ghost predicate TablesOk(db: Db) {
    && Conserved(db)
    && OnePerUser(db.coupons)
    && SoldOutOnlyAtZero(db)
    && Chained(db)
    && forall i | 0 <= i < |db.coupons| :: UseMarked(db.coupons[i])
  }

  /** Empty tables with full stock. */
  ghost predicate FreshTables(db: Db) {
    && db.coupons == [] && db.outbox == []
    && forall k | k in db.stock :: db.stock[k].available == db.stock[k].total && 0 <= db.stock[k].total
  }

  lemma CountAppend(cs: seq<Coupon>, c: Coupon, k: StockKey, kind: Kind)
    ensures Count(cs + [c], k, kind) == Count(cs, k, kind) + if OfKind(c, k, kind) then 1 else 0
  {
    assert (cs + [c])[..|cs|] == cs;
  }

  lemma {:induction false} CountUpdate(cs: seq<Coupon>, i: nat, c: Coupon, k: StockKey, kind: Kind)
    requires i < |cs| && OfKind(cs[i], k, kind) == OfKind(c, k, kind)
    ensures Count(cs[i := c], k, kind) == Count(cs, k, kind)
  {
    var n := |cs| - 1;
    if i == n {
      assert cs[i := c][..n] == cs[..n];
    } else {
      assert cs[i := c][..n] == cs[..n][i := c];
      CountUpdate(cs[..n], i, c, k, kind);
    }
  }

  lemma WriteConserves(events: map<int, Event>, db: Db, a: Attempt, status: CouponStatus, available: int)
    requires Conserved(db) && Decide(events, db.stock, a) == Decided(status)
    requires status.Success? ==> available == db.stock[AttemptStockKey(a)].available
    ensures Conserved(Write(db, a, status, available))
  {
    var db' := Write(db, a, status, available);
    forall k | k in db'.stock
      ensures 0 <= db'.stock[k].available
      ensures db'.stock[k].available + Count(db'.coupons, k, IsGranted) == db'.stock[k].total
    {
      CountAppend(db.coupons, CouponFor(a, status), k, IsGranted);
    }
    hide Count, CodeFor, ToResultPayload;
  }

  lemma WriteStaysUnique(cs: seq<Coupon>, c: Coupon)
    requires OnePerUser(cs) && !HasKey(cs, CouponKey(c)) && !HasCode(cs, c.code)
    ensures OnePerUser(cs + [c])
  {}

  lemma WriteTurnsAwayAtZero(events: map<int, Event>, db: Db, a: Attempt, status: CouponStatus, available: int)
    requires Conserved(db) && SoldOutOnlyAtZero(db) && Decide(events, db.stock, a) == Decided(status)
    requires status.Success? ==> available == db.stock[AttemptStockKey(a)].available
    ensures SoldOutOnlyAtZero(Write(db, a, status, available))
  {
    hide Count, CodeFor, ToResultPayload;
  }

  lemma WriteChains(db: Db, a: Attempt, status: CouponStatus, available: int)
    requires Chained(db) && ValidRequest(a.req) && !status.Used?
    ensures Chained(Write(db, a, status, available))
  {
    assert Tells(ToResultPayload(a, status), CouponFor(a, status));
    hide Tells, ToResultPayload, CouponFor;
  }

  lemma WriteKeepsTables(events: map<int, Event>, db: Db, a: Attempt, status: CouponStatus)
    requires TablesOk(db) && ValidRequest(a.req)
    requires !HasKey(db.coupons, AttemptKey(a)) && !HasCode(db.coupons, CodeFor(a, status))
    requires Decide(events, db.stock, a) == Decided(status)
    ensures status.Success? ==> AttemptStockKey(a) in db.stock
    ensures TablesOk(Write(db, a, status, if status.Success? then db.stock[AttemptStockKey(a)].available else 0))
  {
    var available := if status.Success? then db.stock[AttemptStockKey(a)].available else 0;
    WriteConserves(events, db, a, status, available);
    WriteStaysUnique(db.coupons, CouponFor(a, status));
    WriteTurnsAwayAtZero(events, db, a, status, available);
    WriteChains(db, a, status, available);
    hide Conserved, OnePerUser, SoldOutOnlyAtZero, Chained, HasKey, HasCode, ToResultPayload, ValidRequest, CodeFor;
  }

  lemma IssueKeepsTables(events: map<int, Event>, db: Db, a: Attempt)
    requires TablesOk(db) && ValidRequest(a.req)
    ensures TablesOk(Issue(events, db, a))
  {
    var d := Decide(events, db.stock, a);
    if !HasKey(db.coupons, AttemptKey(a)) && d.Decided? && !HasCode(db.coupons, CodeFor(a, d.status)) {
      WriteKeepsTables(events, db, a, d.status);
    }
  }

  lemma UseKeepsTables(db: Db, row: nat, now: int)
    requires TablesOk(db) && row < |db.coupons| && db.coupons[row].status.Success?
    ensures TablesOk(db.(coupons := MarkUsed(db.coupons, row, db.coupons[row].version, now)))
  {
    var c := db.coupons[row];
    var c' := c.(status := Used, usedAt := Some(now), version := c.version + 1);
    forall k | k in db.stock
      ensures Count(db.coupons[row := c'], k, IsGranted) == Count(db.coupons, k, IsGranted)
    {
      CountUpdate(db.coupons, row, c', k, IsGranted);
    }
  }

  lemma MarkKeepsTables(db: Db, ids: set<nat>)
    requires TablesOk(db)
    ensures TablesOk(db.(outbox := MarkPublished(db.outbox, ids)))
  {}

  lemma FreshTablesOk(db: Db)
    requires FreshTables(db)
    ensures TablesOk(db)
  {}

  lemma {:induction false} TurnedAwayNeedsARow(cs: seq<Coupon>, k: StockKey)
    ensures Count(cs, k, IsTurnedAway) > 0 ==>
              exists i | 0 <= i < |cs| :: OfKind(cs[i], k, IsTurnedAway)
  {
    if cs != [] {
      TurnedAwayNeedsARow(cs[..|cs| - 1], k);
      if OfKind(cs[|cs| - 1], k, IsTurnedAway) {
      } else if Count(cs, k, IsTurnedAway) > 0 {
        var i :| 0 <= i < |cs| - 1 && OfKind(cs[..|cs| - 1][i], k, IsTurnedAway);
        assert OfKind(cs[i], k, IsTurnedAway);
      }
    }
  }

  /**
   * Of everybody the stock decision was taken for, exactly the first total get a coupon: the number
   * of issued coupons is the smaller of the total and the number of users decided.
   */
  lemma ExactlyTheTotalIsIssued(db: Db, k: StockKey)
    requires TablesOk(db) && k in db.stock
    ensures var asked := Count(db.coupons, k, IsGranted) + Count(db.coupons, k, IsTurnedAway);
            Count(db.coupons, k, IsGranted) == if asked < db.stock[k].total then asked else db.stock[k].total
  {
    TurnedAwayNeedsARow(db.coupons, k);
  }

  // ---------------------------------------------------------------- what an issue writes, field by field

  /** The row's code when nothing was granted: at most twelve characters, from the request's id. */
  function ShortId(a: Attempt): string {
    var id := if a.req.requestId.Some? then a.req.requestId.value else "";
    "X" + if |id| <= 11 then id else id[..11]
  }

  predicate OutsideItsTime(e: Event, at: int) {
    at < e.startedAt || at > e.endedAt
  }

  /** Row and result of this run of the transaction; using the coupon later makes no difference. */
  predicate IsIssueOf(events: map<int, Event>, a: Attempt, c: Coupon, p: ResultPayload) {
    var granted := c.status == Success || c.status == Used;
    && c.userId == a.req.userId && c.eventId == a.req.eventId && c.couponTypeId == a.req.couponTypeId
    && c.issuedAt == a.now && c.code == (if granted then a.code else ShortId(a))
    && a.req.eventId in events && (c.status == Failed <==> OutsideItsTime(events[a.req.eventId], a.now))
    && p.requestId == a.req.requestId && p.userId == a.req.userId
    && p.eventId == a.req.eventId && p.couponTypeId == a.req.couponTypeId && p.processedAt == Some(a.now)
    && p.couponCode == (if granted then Some(a.code) else None)
    && p.status == Some(if granted then ResultSuccess else if c.status == SoldOut then ResultSoldOut else ResultFailed)
  }

  /** The user has a row for the coupon type. */
  predicate HasRowFor(cs: seq<Coupon>, userId: int, couponTypeId: int) {
    exists i | 0 <= i < |cs| :: cs[i].userId == userId && cs[i].couponTypeId == couponTypeId
  }

  lemma HasRowForIsHasKey(cs: seq<Coupon>, userId: int, couponTypeId: int)
    ensures HasRowFor(cs, userId, couponTypeId) <==> HasKey(cs, Key(userId, couponTypeId))
  {
    if HasRowFor(cs, userId, couponTypeId) {
      var i :| 0 <= i < |cs| && cs[i].userId == userId && cs[i].couponTypeId == couponTypeId;
      assert CouponKey(cs[i]) == Key(userId, couponTypeId);
    }
  }

  /** Nothing can be written for this request: its user has a row, or event, stock row or a free code is missing. */
  predicate NothingToWrite(events: map<int, Event>, db: Db, a: Attempt) {
    var k := StockKey(a.req.eventId, a.req.couponTypeId);
    || HasRowFor(db.coupons, a.req.userId, a.req.couponTypeId)
    || a.req.eventId !in events
    || if OutsideItsTime(events[a.req.eventId], a.now) then HasCode(db.coupons, ShortId(a))
       else k !in db.stock || HasCode(db.coupons, if db.stock[k].available > 0 then a.code else ShortId(a))
  }

  /** One row and one unpublished result are added, and stock is taken exactly for a success. */
  ghost predicate WritesOne(events: map<int, Event>, db: Db, db': Db, a: Attempt) {
    var k := StockKey(a.req.eventId, a.req.couponTypeId);
    && |db'.coupons| == |db.coupons| + 1 && |db'.outbox| == |db.outbox| + 1
    && var c, record := db'.coupons[|db.coupons|], db'.outbox[|db.outbox|];
       && IsIssueOf(events, a, c, record.payload) && c.usedAt == None && c.version == 0 && c.status != Used
       && !record.published
       && db'.coupons == db.coupons + [c] && db'.outbox == db.outbox + [record]
       && (c.status == Failed || (k in db.stock && (c.status == SoldOut <==> db.stock[k].available <= 0)))
       && (c.status == Success ==>
             db'.stock == db.stock[k := Stock(db.stock[k].total, db.stock[k].available - 1)])
       && (c.status != Success ==> db'.stock == db.stock)
  }

  /**
   * An issue writes one row and one unpublished result, or nothing. Outside the event's time the row
   * is a failed one; within it the row is sold out exactly when no stock was left, and else one is taken.
   */
  lemma WhatAnIssueDoes(events: map<int, Event>, db: Db, a: Attempt)
    ensures NothingToWrite(events, db, a) ==> Issue(events, db, a) == db
    ensures !NothingToWrite(events, db, a) ==> WritesOne(events, db, Issue(events, db, a), a)
  {
    HasRowForIsHasKey(db.coupons, a.req.userId, a.req.couponTypeId);
    assert CodeFor(a, SoldOut) == ShortId(a) && CodeFor(a, Failed) == ShortId(a) && CodeFor(a, Success) == a.code;
    hide HasRowFor, HasKey, HasCode, ShortId, CodeFor;
  }

  /** Requests whose ids differ in their first eleven characters never share a placeholder code. */
  lemma PlaceholderCodesDiffer(id: string, other: string)
    ensures |PlaceholderCode(id)| <= 12 && PlaceholderCode(id)[0] == 'X'
    ensures PlaceholderCode(id) == PlaceholderCode(other) <==>
            (if |id| <= 11 then id else id[..11]) == (if |other| <= 11 then other else other[..11])
  {
    var x, y := if |id| <= 11 then id else id[..11], if |other| <= 11 then other else other[..11];
    assert PlaceholderCode(id) == "X" + x && PlaceholderCode(other) == "X" + y;
    assert ("X" + x)[1..] == x && ("X" + y)[1..] == y;
  }
}
