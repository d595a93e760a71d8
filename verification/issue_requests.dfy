/**
 * server-a's issue operation: what it answers from the sold-out cache without asking server-b, and
 * what that means for the stock at server-c.
 */
module IssueRequests {
  import opened Payloads
  import opened CouponDb
  import C = ServerC
  import CT = ServerCTheorems
  import S = SoldOutCache

  datatype AcceptanceStatus = ACCEPTED | DUPLICATE | SOLD_OUT | INTERNAL_ERROR

  /** The status of the request log. */
  datatype LogStatus = LogAccepted | LogDuplicate | LogSoldOut | LogRejected

  datatype Command = Command(userId: int, eventId: int, couponTypeId: int)

  datatype LogEntry = LogEntry(command: Command, status: LogStatus, now: int)

  /** The EXISTS of the sold-out key: its answer, or that it failed. */
  datatype CacheRead = ReadFails | ReadWorks(soldOut: set<StockKey>)

  class IssueRequestService {
    var log: seq<LogEntry>
    var forwarded: seq<Command>

    constructor ()
      ensures log == [] && forwarded == []
    {
      log, forwarded := [], [];
    }

    /** A read that fails counts as not sold out. */
    method IsSoldOut(k: StockKey, cache: CacheRead) returns (soldOut: bool)
      ensures soldOut <==> cache.ReadWorks? && k in cache.soldOut
    {
      match cache
      case ReadFails => return false;
      case ReadWorks(keys) => return k in keys;
    }

    /**
     * Answered from the cache exactly when the read works and has the key; then server-b is not
     * called. Otherwise it is called once and its answer is passed on. Either way one entry is logged.
     */
    method Issue(command: Command, cache: CacheRead, fromB: AcceptanceStatus, now: int) returns (r: AcceptanceStatus)
      modifies this
      ensures cache == ReadFails ==> r == fromB && forwarded == old(forwarded) + [command]
      ensures cache.ReadWorks? && StockKey(command.eventId, command.couponTypeId) !in cache.soldOut ==>
                r == fromB && forwarded == old(forwarded) + [command]
      ensures cache.ReadWorks? && StockKey(command.eventId, command.couponTypeId) in cache.soldOut ==>
                r == SOLD_OUT && forwarded == old(forwarded)
      ensures r == Answered(command, cache, fromB).status
      ensures |forwarded| == |old(forwarded)| + if Answered(command, cache, fromB).asked then 1 else 0
      ensures |log| == |old(log)| + 1 && log[..|old(log)|] == old(log)
      ensures var entry := log[|old(log)|];
              && entry.command == command && entry.now == now
              && (entry.status == LogAccepted <==> r == ACCEPTED) && (entry.status == LogDuplicate <==> r == DUPLICATE)
              && (entry.status == LogSoldOut <==> r == SOLD_OUT) && (entry.status == LogRejected <==> r == INTERNAL_ERROR)
    {
      var soldOut := IsSoldOut(StockKey(command.eventId, command.couponTypeId), cache);
      if soldOut {
        Save(command, LogSoldOut, now);
        return SOLD_OUT;
      }
      forwarded := forwarded + [command];
      Save(command, MapStatus(fromB), now);
      return fromB;
    }

    method Save(command: Command, status: LogStatus, now: int)
      modifies this`log
      ensures log == old(log) + [LogEntry(command, status, now)]
    {
      log := log + [LogEntry(command, status, now)];
    }
  }

  function MapStatus(status: AcceptanceStatus): LogStatus {
    match status
    case ACCEPTED => LogAccepted
    case DUPLICATE => LogDuplicate
    case SOLD_OUT => LogSoldOut
    case INTERNAL_ERROR => LogRejected
  }

  /** What a caller is answered, and whether server-b was asked. */
  datatype Answer = Answer(status: AcceptanceStatus, asked: bool)

  function Answered(command: Command, cache: CacheRead, fromB: AcceptanceStatus): Answer {
    if cache.ReadWorks? && StockKey(command.eventId, command.couponTypeId) in cache.soldOut then Answer(SOLD_OUT, false)
    else Answer(fromB, true)
  }

  /** The read of the key while server-c is in this state. */
  function ReadAt(s: C.State, works: bool): CacheRead {
    if works then ReadWorks(s.cache) else ReadFails
  }

  /** An unreadable cache refuses nobody: server-b is asked and its answer passed on. */
  lemma UnreadableCacheRefusesNothing(command: Command, s: C.State, fromB: AcceptanceStatus)
    ensures Answered(command, ReadAt(s, false), fromB) == Answer(fromB, true)
  {}

  /**
   * After any run of server-c: stock that somebody asked for and that is gone is answered sold out
   * without a call to server-b, unless a check after a commit is still to come or was lost; and
   * stock that is not gone, or that nobody has asked for, never is.
   */
  lemma GoneStockIsRefusedAtTheDoor(c: C.State, steps: seq<C.Step>, command: Command, fromB: AcceptanceStatus)
    requires C.Init(c) && C.Runs(c, steps)
    requires var s := C.After(c, steps); var k := StockKey(command.eventId, command.couponTypeId);
             k !in s.skipped && !C.PostPending(s.txs, k)
    ensures var s := C.After(c, steps); var k := StockKey(command.eventId, command.couponTypeId);
            var gone := k in s.db.stock && s.db.stock[k].available == 0 && S.AskedFor(s.db.coupons, k) > 0;
            && (gone ==> Answered(command, ReadAt(s, true), fromB) == Answer(SOLD_OUT, false))
            && (!gone ==> Answered(command, ReadAt(s, true), fromB) == Answer(fromB, true))
  {
    S.DepletedStockIsCached(c, steps, StockKey(command.eventId, command.couponTypeId));
    hide C.Init, C.Runs, C.After, C.PostPending, S.AskedFor;
  }

  /**
   * Whoever is answered sold out without server-b being asked could not have been granted a coupon,
   * at once or at any later time.
   */
  lemma RefusedAtTheDoorCouldNotBeGranted(c: C.State, steps: seq<C.Step>, later: seq<C.Step>, a: Attempt, works: bool,
                                          fromB: AcceptanceStatus)
    requires C.Init(c) && C.Runs(c, steps) && C.Runs(C.After(c, steps), later)
    requires var command := Command(a.req.userId, a.req.eventId, a.req.couponTypeId);
             !Answered(command, ReadAt(C.After(c, steps), works), fromB).asked
    ensures var db := C.After(C.After(c, steps), later).db; var k := StockKey(a.req.eventId, a.req.couponTypeId);
            && k in db.stock && db.stock[k].available == 0
            && Count(Issue(c.events, db, a).coupons, k, IsGranted) == Count(db.coupons, k, IsGranted)
  {
    CT.CachedStockGrantsNothing(c, steps, later, a);
  }
}
