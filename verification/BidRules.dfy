/** The pure bidding rules (server-go/internal/bid/rules.go) and the WHERE clause that restates them in SQL. */
module BidRules {
  import opened AuctionTypes

  datatype Error =
    | InvalidParam
    | AuctionNotFound
    | Forbidden
    | NotPending
    | AlreadyEnded
    | AlreadyCancelled
    | BidTooLow(minimum: int)
    | OverCeiling
    | BidConflict
    | IdempotencyConflict
    | SystemProtect
    | OrderConflict
    | Storage

  datatype Verdict = Pass | Fail(error: Error)

  function MinAcceptable(a: Auction): int {
    if a.bidCount == 0 then (if a.config.startPrice > 0 then a.config.startPrice else a.config.priceStep)
    else a.currentPrice + a.config.priceStep
  }

  function Validate(a: Auction, amount: int, now: int): Verdict {
    match a.status
    case Pending => Fail(NotPending)
    case Ended => Fail(AlreadyEnded)
    case Cancelled => Fail(AlreadyCancelled)
    case Active =>
      if a.endTime <= now then Fail(AlreadyEnded)
      else if amount < MinAcceptable(a) then Fail(BidTooLow(MinAcceptable(a)))
      else if a.config.ceilingPrice.Some? && amount > a.config.ceilingPrice.value then Fail(OverCeiling)
      else Pass
  }

  predicate ShouldExtend(a: Auction, now: int) {
    a.endTime - now <= a.config.extendThreshold * SECOND
  }

  /** The WHERE clause of the conditional UPDATE, evaluated on the database clock. */
  predicate AcceptWhere(a: Auction, amount: int, dbNow: int) {
    && a.status == Active
    && a.endTime > dbNow
    && (|| (a.bidCount == 0 && a.config.startPrice > 0 && amount >= a.config.startPrice)
        || (a.bidCount == 0 && a.config.startPrice == 0 && amount >= a.config.priceStep)
        || (a.bidCount > 0 && a.currentPrice + a.config.priceStep <= amount))
    && (a.config.ceilingPrice.None? || amount <= a.config.ceilingPrice.value)
  }

  /** The Go rule and the SQL clause agree at every amount and instant on exactly these rows: those with bids, those
      without a bid and with a non-negative start price, and those on which both always refuse. */
  lemma RulesAgree(a: Auction)
    ensures (forall amount, now :: Validate(a, amount, now).Pass? <==> AcceptWhere(a, amount, now))
       <==> || a.bidCount > 0
            || (a.bidCount == 0 && a.config.startPrice >= 0)
            || a.status != Active
            || (a.config.ceilingPrice.Some? && a.config.ceilingPrice.value < MinAcceptable(a))
  {
    var amount, now := MinAcceptable(a), a.endTime - 1;
    assert a.status == Active && (a.config.ceilingPrice.None? || MinAcceptable(a) <= a.config.ceilingPrice.value)
           ==> Validate(a, amount, now).Pass?;
  }

  /** With the two clocks apart, both tests pass exactly when the rule passes at the later instant. */
  lemma BothClocks(a: Auction, amount: int, appNow: int, dbNow: int)
    requires a.config.startPrice >= 0 && a.bidCount >= 0
    ensures Validate(a, amount, appNow).Pass? && AcceptWhere(a, amount, dbNow)
       <==> Validate(a, amount, if appNow < dbNow then dbNow else appNow).Pass?
  {
  }
}
