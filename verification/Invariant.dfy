/** What holds of every auction in every committed state, proved one auction at a time on its slice of
    the tables: its row, its bids, its order and its numbered events. */
module AuctionInvariant {
  import opened AuctionTypes
  import opened BidRules
  import opened Tables

  datatype Slice = Slice(row: Auction, bids: seq<Bid>, order: Option<Order>, log: seq<Event>)

  function Last<T>(s: seq<T>): T
    requires s != []
  {
    s[|s| - 1]
  }

  predicate ConfigOk(a: Auction) {
    && PricesOk(a.config.startPrice, a.config.priceStep, a.config.ceilingPrice)
    && 10 <= a.config.extendSeconds <= 30
    && 1 <= a.config.extendThreshold <= 300
  }

  function FirstMin(a: Auction): int {
    if a.config.startPrice > 0 then a.config.startPrice else a.config.priceStep
  }

  /** Accepted amounts rise by at least one step from the first minimum; the row shows the last of them. */
  predicate BidsOk(a: Auction, bids: seq<Bid>) {
    && a.bidCount == |bids|
    && (bids == [] ==> a.currentPrice == a.config.startPrice && a.leaderId == None)
    && (bids != [] ==>
         && a.currentPrice == Last(bids).amount
         && a.leaderId == Some(Last(bids).userId)
         && bids[0].amount >= FirstMin(a)
         && (a.config.ceilingPrice.Some? ==> a.currentPrice <= a.config.ceilingPrice.value)
         && (a.config.ceilingPrice == Some(a.currentPrice) ==> a.status == Ended))
    && (forall i | 0 <= i < |bids| - 1 :: bids[i].amount + a.config.priceStep <= bids[i + 1].amount)
  }

  predicate LogOk(id: int, log: seq<Event>) {
    WellNumbered(log) && forall i | 0 <= i < |log| :: log[i].auctionId == id
  }

  /** The log, folded from nothing, rebuilds the row and its order. */
  predicate Rebuilds(v: View, s: Slice) {
    && v.status == s.row.status
    && v.price == (if Begun(s.log) then Some(s.row.currentPrice) else None)
    && v.leader == s.row.leaderId
    && v.bidCount == s.row.bidCount
    && (s.row.status == Active ==> v.endTime == s.row.endTime)
    && (s.row.status == Ended ==>
         && v.winner == s.row.leaderId
         && v.finalPrice == (if s.row.leaderId.Some? then Some(s.row.currentPrice) else None)
         && v.orderId == (if s.order.Some? then Some(s.order.value.id) else None))
  }

  /** One order, for this deal, exactly when the auction ended with a leader. */
  predicate OrderOk(a: Auction, order: Option<Order>) {
    if a.status == Ended && a.leaderId.Some? then
      order.Some? && SameDeal(order.value, Order(0, a.leaderId.value, a.config.sellerId, a.currentPrice))
    else order == None
  }

  /** Until it ends, an auction's deadline is the original one plus one extension per extension event. */
  predicate DeadlineOk(a: Auction, bids: seq<Bid>, log: seq<Event>) {
    && CountExtended(log) <= |bids|
    && (a.status != Ended ==>
         a.endTime == a.config.originalEndTime + a.config.extendSeconds * SECOND * CountExtended(log))
  }

  /** The log opens with the first change of status and closes with the last one. */
  predicate PhaseOk(s: Slice) {
    && |s.log| == s.row.version
    && (s.row.status == Pending <==> s.log == [])
    && (s.row.status == Ended || s.row.status == Cancelled <==> s.log != [] && Terminal(Last(s.log)))
    && (s.row.status == Active || s.bids != [] ==> Begun(s.log))
  }

  predicate SliceInv(id: int, s: Slice) {
    && ConfigOk(s.row)
    && BidsOk(s.row, s.bids)
    && LogOk(id, s.log)
    && Rebuilds(Fold(s.log), s)
    && OrderOk(s.row, s.order)
    && PhaseOk(s)
    && DeadlineOk(s.row, s.bids, s.log)
  }

  // ---- the steps of one slice ----

  function BidSlice(s: Slice, req: Request, bid: Bid, now: int, orderId: int): Slice {
    var p := PlanOf(s.row, req.amount, now);
    Slice(BidRow(s.row, req.userId, req.amount, p), s.bids + [bid],
          if p.ceilingHit then Some(Order(orderId, req.userId, s.row.config.sellerId, req.amount)) else s.order,
          s.log + PlaceEvents(req.auctionId, s.row, ResultOf(s.row, bid, p, now, orderId)))
  }

  /** An event count of the plan that disagreed with the events built would leave a hole or a clash. */
  lemma EventCountMatches(id: int, a: Auction, bid: Bid, now: int, orderId: int)
    ensures var p := PlanOf(a, bid.amount, now);
            var events := PlaceEvents(id, a, ResultOf(a, bid, p, now, orderId));
            && |events| == p.eventCount
            && forall i | 0 <= i < |events| :: events[i].eventSeq == a.version + 1 + i
  {
  }

  lemma EventsOfPlan(id: int, a: Auction, bid: Bid, now: int, orderId: int)
    ensures var p := PlanOf(a, bid.amount, now);
            var r := ResultOf(a, bid, p, now, orderId);
            PlaceEvents(id, a, r) == if p.ceilingHit then [BidEvent(id, a, r), CeilingEvent(id, a, r)]
                                     else if p.extended then [BidEvent(id, a, r), ExtendEvent(id, a, r)]
                                     else [BidEvent(id, a, r)]
  {
  }

  lemma FoldTwo(log: seq<Event>, e: Event, f: Event)
    ensures Fold(log + [e, f]) == Apply(Apply(Fold(log), e), f)
    ensures CountExtended(log + [e, f]) ==
            CountExtended(log) + (if e.body.AuctionExtended? then 1 else 0) + (if f.body.AuctionExtended? then 1 else 0)
  {
    FoldSnoc(log, e);
    CountSnoc(log, e);
    assert log + [e, f] == (log + [e]) + [f];
    FoldSnoc(log + [e], f);
    CountSnoc(log + [e], f);
  }

  /** The replayed content and the extension count after the one or two events of a bid. */
  lemma BidView(log: seq<Event>, id: int, a: Auction, bid: Bid, now: int, orderId: int)
    ensures var p := PlanOf(a, bid.amount, now);
            var log' := log + PlaceEvents(id, a, ResultOf(a, bid, p, now, orderId));
            var v := Fold(log).(price := Some(bid.amount), leader := Some(bid.userId),
                                bidCount := Fold(log).bidCount + 1);
            && Fold(log') == (if p.ceilingHit then v.(status := Ended, winner := Some(bid.userId),
                                                      finalPrice := Some(bid.amount), orderId := Some(orderId))
                              else if p.extended then v.(endTime := p.newEndTime) else v)
            && CountExtended(log') == CountExtended(log) + if p.extended then 1 else 0
  {
    hide Fold, CountExtended, PlaceEvents;
    var p := PlanOf(a, bid.amount, now);
    var r := ResultOf(a, bid, p, now, orderId);
    EventsOfPlan(id, a, bid, now, orderId);
    FoldTwo(log, BidEvent(id, a, r), if p.ceilingHit then CeilingEvent(id, a, r) else ExtendEvent(id, a, r));
    FoldSnoc(log, BidEvent(id, a, r));
    CountSnoc(log, BidEvent(id, a, r));
  }

  lemma BidKeepsLog(id: int, a: Auction, log: seq<Event>, bid: Bid, now: int, orderId: int)
    requires LogOk(id, log) && Begun(log) && !Terminal(Last(log)) && |log| == a.version
    ensures var p := PlanOf(a, bid.amount, now);
            var log' := log + PlaceEvents(id, a, ResultOf(a, bid, p, now, orderId));
            LogOk(id, log') && Begun(log') && (Terminal(Last(log')) <==> p.ceilingHit)
  {
    EventCountMatches(id, a, bid, now, orderId);
  }

  lemma BidKeepsBids(a: Auction, bids: seq<Bid>, req: Request, bid: Bid, now: int)
    requires ConfigOk(a) && BidsOk(a, bids) && Validate(a, req.amount, now).Pass?
    requires bid.amount == req.amount && bid.userId == req.userId
    ensures BidsOk(BidRow(a, req.userId, req.amount, PlanOf(a, req.amount, now)), bids + [bid])
  {
  }

  lemma OneMoreExtension(seconds: int, count: int)
    ensures seconds * SECOND * (count + 1) == seconds * SECOND * count + seconds * SECOND
  {
  }

  lemma BidKeepsSlice(id: int, s: Slice, req: Request, bid: Bid, now: int, orderId: int)
    requires SliceInv(id, s) && req.auctionId == id
    requires Validate(s.row, req.amount, now).Pass?
    requires bid.amount == req.amount && bid.userId == req.userId
    ensures SliceInv(id, BidSlice(s, req, bid, now, orderId))
  {
    hide LogOk, BidsOk, PlaceEvents, Fold, CountExtended;
    EventCountMatches(id, s.row, bid, now, orderId);
    BidView(s.log, id, s.row, bid, now, orderId);
    BidKeepsLog(id, s.row, s.log, bid, now, orderId);
    BidKeepsBids(s.row, s.bids, req, bid, now);
    OneMoreExtension(s.row.config.extendSeconds, CountExtended(s.log));
  }

  function StartSlice(id: int, s: Slice): Slice {
    s.(row := s.row.(status := Active, version := s.row.version + 1), log := s.log + [StartEvent(id, s.row)])
  }

  lemma StartKeepsSlice(id: int, s: Slice)
    requires SliceInv(id, s) && s.row.status == Pending
    ensures SliceInv(id, StartSlice(id, s))
  {
    hide Fold, CountExtended;
    FoldSnoc(s.log, StartEvent(id, s.row));
    CountSnoc(s.log, StartEvent(id, s.row));
  }

  function EndSlice(id: int, s: Slice, orderId: int): Slice {
    var order := if s.row.leaderId.Some?
                 then Some(Order(orderId, s.row.leaderId.value, s.row.config.sellerId, s.row.currentPrice)) else None;
    s.(row := s.row.(status := Ended, version := s.row.version + 1),
       order := order,
       log := s.log + [EndEvent(id, s.row, if order.Some? then Some(orderId) else None)])
  }

  lemma EndKeepsSlice(id: int, s: Slice, orderId: int)
    requires SliceInv(id, s) && s.row.status == Active
    ensures SliceInv(id, EndSlice(id, s, orderId))
  {
    hide Fold, CountExtended;
    var e := Last(EndSlice(id, s, orderId).log);
    FoldSnoc(s.log, e);
    CountSnoc(s.log, e);
  }

  function CancelSlice(id: int, s: Slice): Slice {
    s.(row := s.row.(status := Cancelled, version := s.row.version + 1), log := s.log + [CancelEvent(id, s.row)])
  }

  lemma CancelKeepsSlice(id: int, s: Slice)
    requires SliceInv(id, s) && (s.row.status == Pending || s.row.status == Active)
    ensures SliceInv(id, CancelSlice(id, s))
  {
    hide Fold, CountExtended;
    FoldSnoc(s.log, CancelEvent(id, s.row));
    CountSnoc(s.log, CancelEvent(id, s.row));
  }

  lemma ReviseKeepsSlice(id: int, s: Slice, t: Terms, now: int)
    requires SliceInv(id, s) && s.row.status == Pending && WithinLimits(t, now)
    requires PricesOk(Revised(s.row, t).config.startPrice, Revised(s.row, t).config.priceStep,
                      Revised(s.row, t).config.ceilingPrice)
    ensures SliceInv(id, s.(row := Revised(s.row, t)))
  {
  }

  // ---- the slices of a database ----

  function BidsOf(bids: seq<Bid>, id: int): seq<Bid> {
    if bids == [] then []
    else BidsOf(bids[..|bids| - 1], id) + if Last(bids).auctionId == id then [Last(bids)] else []
  }

  lemma BidsOfSnoc(bids: seq<Bid>, b: Bid, id: int)
    ensures BidsOf(bids + [b], id) == BidsOf(bids, id) + if b.auctionId == id then [b] else []
  {
    assert (bids + [b])[..|bids|] == bids;
  }

  function EventAt(outbox: map<(int, int), Event>, id: int, n: int): Event {
    if (id, n) in outbox then outbox[(id, n)] else Event(Scoped(id, n), id, n, Placeholder)
  }

  /** The outbox rows 1..n of one auction. */
  function LogUpTo(outbox: map<(int, int), Event>, id: int, n: nat): (log: seq<Event>)
    ensures |log| == n
    ensures forall i | 0 <= i < n :: log[i] == EventAt(outbox, id, i + 1)
  {
    seq(n, i => EventAt(outbox, id, i + 1))
  }

  function LogOf(db: Db, id: int): seq<Event>
    requires id in db.auctions
  {
    LogUpTo(db.outbox, id, db.auctions[id].version)
  }

  function SliceOf(db: Db, id: int): Slice
    requires id in db.auctions
  {
    Slice(db.auctions[id], BidsOf(db.bids, id), Lookup(db.orders, id), LogOf(db, id))
  }

  /** The numbers of each auction's outbox rows are exactly 1..version. */
  ghost predicate NoHoles(db: Db) {
    forall id, n :: (id, n) in db.outbox <==> id in db.auctions && 1 <= n <= db.auctions[id].version
  }

  /** Key records and bids match one to one, and each record holds the answer that its bid was given. */
  ghost predicate KeysOk(db: Db) {
    && (forall k | k in db.keys :: DuplicateBid(db.bids, k))
    && (forall i, j | 0 <= i < j < |db.bids| :: BidKey(db.bids[i]) != BidKey(db.bids[j]))
    && (forall i | 0 <= i < |db.bids| :: Answered(db, db.bids[i]))
  }

  predicate Answered(db: Db, b: Bid) {
    && BidKey(b) in db.keys
    && var record := db.keys[BidKey(b)];
    && record.fingerprint == Fingerprint(b.auctionId, b.amount)
    && record.status == Succeeded
    && record.response.Some?
    && record.response.value.bid == b
  }

  ghost predicate DbInv(db: Db) {
    && NoHoles(db)
    && KeysOk(db)
    && (forall id | id in db.auctions :: SliceInv(id, SliceOf(db, id)))
    && (forall id | id in db.orders :: id in db.auctions)
    && (forall i | 0 <= i < |db.bids| :: db.bids[i].auctionId in db.auctions)
  }

  /** Inserting events that are numbered on from n extends exactly that auction's rows. */
  lemma {:induction false} InsertExtends(outbox: map<(int, int), Event>, id: int, n: nat, events: seq<Event>)
    requires forall i | 0 <= i < |events| :: events[i].eventSeq == n + 1 + i
    ensures var out := InsertEvents(outbox, id, events);
            && LogUpTo(out, id, n + |events|) == LogUpTo(outbox, id, n) + events
            && (forall k :: k in out <==> k in outbox || (k.0 == id && n < k.1 <= n + |events|))
            && (forall k | k in outbox && !(k.0 == id && n < k.1 <= n + |events|) :: k in out && out[k] == outbox[k])
    decreases |events|
  {
    if events == [] {
      assert LogUpTo(outbox, id, n) + events == LogUpTo(outbox, id, n);
    } else {
      var out1 := outbox[(id, events[0].eventSeq) := events[0]];
      InsertExtends(out1, id, n + 1, events[1..]);
      var out := InsertEvents(outbox, id, events);
      assert out == InsertEvents(out1, id, events[1..]);
      assert LogUpTo(out1, id, n + 1) == LogUpTo(outbox, id, n) + [events[0]];
      assert LogUpTo(outbox, id, n) + [events[0]] + events[1..] == LogUpTo(outbox, id, n) + events;
    }
  }
}
