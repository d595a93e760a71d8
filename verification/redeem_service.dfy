/**
 * RedeemCouponService.redeem over the table it changes in place. The lookup reads the transaction's
 * snapshot; the guarded UPDATE looks at the latest row.
 */
module RedeemService {
  import opened Payloads
  import opened CouponDb
  import opened Repositories
  import C = ServerC
  import T = ServerCTheorems

  datatype RedeemError = CouponNotFound | InvalidState | OptimisticLockFailure

  datatype Redemption =
    | Rejected(error: RedeemError)
    | Redeemed(code: string, userId: int, redeemedAt: int, newly: bool)

  predicate Owns(cs: seq<Coupon>, row: int, code: string, userId: int) {
    0 <= row < |cs| && cs[row].code == code && cs[row].userId == userId
  }

  ghost predicate AllMarked(cs: seq<Coupon>) {
    forall i | 0 <= i < |cs| :: UseMarked(cs[i])
  }

  /** What the owner of the row is told, from the row as it was read and as it is at the UPDATE. */
  function Verdict(was: Coupon, latest: Coupon, now: int): Redemption {
    match was.status
    case Used =>
      if was.usedAt.Some? then Redeemed(was.code, was.userId, was.usedAt.value, false) else Rejected(InvalidState)
    case Success =>
      if latest.status.Success? then Redeemed(was.code, was.userId, now, true) else Rejected(OptimisticLockFailure)
    case SoldOut => Rejected(InvalidState)
    case Failed => Rejected(InvalidState)
  }

  class RedeemCouponService {
    const tables: Tables

    constructor (tables: Tables)
      ensures this.tables == tables
    {
      this.tables := tables;
    }

    /** Somebody else's coupon is not told apart from none; one use of the row, at the time told. */
    method Redeem(code: string, userId: int, now: int, snapshot: seq<Coupon>) returns (r: Redemption)
      requires OnePerUser(tables.coupons) && AllMarked(tables.coupons)
      requires AllMarked(snapshot) && T.RowsExtend(snapshot, tables.coupons)
      modifies tables`coupons
      ensures r == Rejected(CouponNotFound) <==> forall row | 0 <= row < |snapshot| :: !Owns(snapshot, row, code, userId)
      ensures forall row | Owns(snapshot, row, code, userId) ::
                && r == Verdict(snapshot[row], old(tables.coupons)[row], now)
                && tables.coupons == if r.Redeemed? && r.newly
                                     then MarkUsed(old(tables.coupons), row, old(tables.coupons)[row].version, now)
                                     else old(tables.coupons)
      ensures r.Rejected? || !r.newly ==> tables.coupons == old(tables.coupons)
      ensures r.Redeemed? ==>
                && r.code == code && r.userId == userId
                && exists row :: && Owns(tables.coupons, row, code, userId) && tables.coupons[row].status == Used
                                 && tables.coupons[row].usedAt == Some(r.redeemedAt)
      ensures forall row | Owns(snapshot, row, code, userId) ::
                && (snapshot[row].status == Success && old(tables.coupons)[row].status == Success ==>
                      && r == Redeemed(code, userId, now, true)
                      && tables.coupons == old(tables.coupons)[row := old(tables.coupons)[row].(
                                             status := Used, usedAt := Some(now), version := 1)])
                && (snapshot[row].status == Success && old(tables.coupons)[row].status == Used ==>
                      r == Rejected(OptimisticLockFailure))
                && (snapshot[row].status == Used ==>
                      snapshot[row].usedAt.Some? && r == Redeemed(code, userId, snapshot[row].usedAt.value, false))
                && (snapshot[row].status == SoldOut || snapshot[row].status == Failed ==> r == Rejected(InvalidState))
      ensures OnePerUser(tables.coupons) && AllMarked(tables.coupons)
      ensures T.RowsExtend(old(tables.coupons), tables.coupons)
    {
      var found := C.FindCode(snapshot, code);
      if found.None? { return Rejected(CouponNotFound); }
      var coupon := snapshot[found.value];
      if coupon.userId != userId { return Rejected(CouponNotFound); }
      assert Owns(snapshot, found.value, code, userId);
      assert Owns(tables.coupons, found.value, code, userId);
      if coupon.usedAt.Some? { return Redeemed(coupon.code, coupon.userId, coupon.usedAt.value, false); }
      if !coupon.status.Success? { return Rejected(InvalidState); }
      var affected := tables.MarkCouponUsed(found.value, coupon.version, now);
      if affected == 0 { return Rejected(OptimisticLockFailure); }
      assert Owns(tables.coupons, found.value, code, userId);
      return Redeemed(coupon.code, coupon.userId, now, true);
    }
  }

  /** Whoever lost a race is told of the winner's use by the next call: no second lost race. */
  lemma RetryAfterARaceReplays(was: Coupon, latest: Coupon, later: Coupon, now: int, again: int)
    requires UseMarked(was) && UseMarked(latest) && T.RowsExtend([was], [latest]) && T.RowsExtend([latest], [later])
    requires Verdict(was, latest, now) == Rejected(OptimisticLockFailure)
    ensures latest.usedAt.Some?
    ensures Verdict(latest, later, again) == Redeemed(was.code, was.userId, latest.usedAt.value, false)
  {
    assert [was][0] == was && [latest][0] == latest;
  }
}
