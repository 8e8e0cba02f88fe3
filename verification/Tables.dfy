/** The database and its transactions as values. Each transaction is a function from the tables it
    finds to the tables it commits or the error it aborts with; a duplicate of a unique key aborts.
    The class `Database` runs the same transactions statement by statement. */
module Tables {
  import opened AuctionTypes
  import opened BidRules

  /** The unique key of `idempotency_keys`, whose scope is `bid:<auction>`. */
  datatype IdemKey = IdemKey(userId: int, auctionId: int, key: string)

  /** The hash of a request, taken as injective on what it hashes. */
  datatype Fingerprint = Fingerprint(auctionId: int, amount: int)

  datatype RecordStatus = Processing | Succeeded | Failed

  datatype Record = Record(fingerprint: Fingerprint, response: Option<BidResult>, status: RecordStatus)

  datatype Db = Db(
    auctions: map<int, Auction>,
    bids: seq<Bid>,
    orders: map<int, Order>,
    keys: map<IdemKey, Record>,
    outbox: map<(int, int), Event>,
    nextBidId: int,
    nextOrderId: int)

  const EMPTY := Db(map[], [], map[], map[], map[], 1, 1)

  datatype Reply = Accepted(result: BidResult) | Refused(error: Error)

  datatype Tx<+T> = Commit(db: Db, value: T) | Abort(error: Error)

  // ---- idempotency ----

  datatype Request = Request(auctionId: int, userId: int, amount: int, key: string)

  predicate BadRequest(req: Request) {
    req.auctionId <= 0 || req.amount <= 0 || req.key == "" || |req.key| > 128
  }

  function KeyOf(req: Request): IdemKey {
    IdemKey(req.userId, req.auctionId, req.key)
  }

  function FingerprintOf(req: Request): Fingerprint {
    Fingerprint(req.auctionId, req.amount)
  }

  function BidKey(b: Bid): IdemKey {
    IdemKey(b.userId, b.auctionId, b.key)
  }

  function Lookup<K, V>(m: map<K, V>, k: K): Option<V> {
    if k in m then Some(m[k]) else None
  }

  /** The answer found in a key record, if it settles the request. */
  function FromRecord(record: Option<Record>, req: Request): Option<Reply> {
    match record
    case None => None
    case Some(r) =>
      if r.fingerprint != FingerprintOf(req) then Some(Refused(IdempotencyConflict))
      else if r.status != Succeeded || r.response.None? then None
      else Some(Accepted(r.response.value))
  }

  // ---- placing a bid ----

  datatype Plan = Plan(ceilingHit: bool, extended: bool, newEndTime: int, eventCount: nat)

  function PlanOf(a: Auction, amount: int, now: int): Plan {
    if a.config.ceilingPrice == Some(amount) then Plan(true, false, now, 2)
    else if ShouldExtend(a, now) then Plan(false, true, a.endTime + a.config.extendSeconds * SECOND, 2)
    else Plan(false, false, a.endTime, 1)
  }

  function BidRow(a: Auction, userId: int, amount: int, p: Plan): Auction {
    a.(currentPrice := amount, leaderId := Some(userId), endTime := p.newEndTime,
       status := if p.ceilingHit then Ended else a.status,
       version := a.version + p.eventCount, bidCount := a.bidCount + 1)
  }

  function ResultOf(a: Auction, bid: Bid, p: Plan, now: int, orderId: int): BidResult {
    BidResult(bid, a.version + p.eventCount, bid.amount, bid.userId, p.extended, p.newEndTime, now,
              p.ceilingHit, if p.ceilingHit then Some(orderId) else None)
  }

  function BidEvent(auctionId: int, a: Auction, r: BidResult): Event {
    Event(Scoped(auctionId, a.version + 1), auctionId, a.version + 1,
          BidUpdate(r.auctionVersion, r.currentPrice, r.currentLeader, r.bid))
  }

  function ExtendEvent(auctionId: int, a: Auction, r: BidResult): Event {
    Event(Scoped(auctionId, a.version + 2), auctionId, a.version + 2,
          AuctionExtended(r.newEndTime, a.config.extendSeconds))
  }

  function CeilingEvent(auctionId: int, a: Auction, r: BidResult): Event {
    Event(Scoped(auctionId, a.version + 2), auctionId, a.version + 2,
          AuctionEnded(None, Some(r.currentLeader), Some(r.currentPrice), r.orderId))
  }

  /** The events of an accepted bid, numbered on from the row's version. */
  function PlaceEvents(auctionId: int, a: Auction, r: BidResult): seq<Event> {
    [BidEvent(auctionId, a, r)]
    + (if r.extended then [ExtendEvent(auctionId, a, r)] else [])
    + (if r.ceilingHit then [CeilingEvent(auctionId, a, r)] else [])
  }

  predicate Fits(outbox: map<(int, int), Event>, auctionId: int, events: seq<Event>) {
    forall i | 0 <= i < |events| :: (auctionId, events[i].eventSeq) !in outbox
  }

  function InsertEvents(outbox: map<(int, int), Event>, auctionId: int, events: seq<Event>): map<(int, int), Event>
    decreases |events|
  {
    if events == [] then outbox
    else InsertEvents(outbox[(auctionId, events[0].eventSeq) := events[0]], auctionId, events[1..])
  }

  lemma InsertOne(outbox: map<(int, int), Event>, auctionId: int, e: Event)
    ensures InsertEvents(outbox, auctionId, [e]) == outbox[(auctionId, e.eventSeq) := e]
    ensures Fits(outbox, auctionId, [e]) <==> (auctionId, e.eventSeq) !in outbox
  {
    assert [e][0] == e && [e][1..] == [];
  }

  predicate DuplicateBid(bids: seq<Bid>, k: IdemKey) {
    exists i | 0 <= i < |bids| :: BidKey(bids[i]) == k
  }

  /** The row, bid, order and key record of a bid that `Validate` has passed. */
  function WriteTx(db: Db, req: Request, a: Auction, now: int, dbNow: int): Tx<BidResult> {
    var bid := Bid(db.nextBidId, req.auctionId, req.userId, req.amount, req.key);
    var p := PlanOf(a, req.amount, now);
    var r := ResultOf(a, bid, p, now, db.nextOrderId);
    if !AcceptWhere(a, req.amount, dbNow) then Abort(BidConflict)
    else if DuplicateBid(db.bids, KeyOf(req)) then Abort(Storage)
    else if p.ceilingHit && req.auctionId in db.orders then Abort(Storage)
    else Commit(
      db.(auctions := db.auctions[req.auctionId := BidRow(a, req.userId, req.amount, p)],
          bids := db.bids + [bid],
          orders := if p.ceilingHit
                    then db.orders[req.auctionId := Order(db.nextOrderId, req.userId, a.config.sellerId, req.amount)]
                    else db.orders,
          keys := db.keys[KeyOf(req) := Record(FingerprintOf(req), Some(r), Succeeded)],
          nextBidId := db.nextBidId + 1,
          nextOrderId := if p.ceilingHit then db.nextOrderId + 1 else db.nextOrderId),
      r)
  }

  function AcceptTx(db: Db, req: Request, a: Auction, now: int, dbNow: int): Tx<BidResult> {
    match WriteTx(db, req, a, now, dbNow)
    case Abort(e) => Abort(e)
    case Commit(d, r) =>
      var events := PlaceEvents(req.auctionId, a, r);
      if !Fits(d.outbox, req.auctionId, events) then Abort(Storage)
      else Commit(d.(outbox := InsertEvents(d.outbox, req.auctionId, events)), r)
  }

  function PlaceTx(db: Db, req: Request, now: int, dbNow: int): Tx<BidResult> {
    match FromRecord(Lookup(db.keys, KeyOf(req)), req)
    case Some(Accepted(r)) => Commit(db, r)
    case Some(Refused(e)) => Abort(e)
    case None =>
      if req.auctionId !in db.auctions then Abort(AuctionNotFound) else
      var a := db.auctions[req.auctionId];
      match Validate(a, req.amount, now)
      case Fail(e) => Abort(e)
      case Pass => AcceptTx(db, req, a, now, dbNow)
  }

  datatype LockAnswer = Acquired | Busy | Unreachable

  function OnSnapshot(snapshot: Option<Auction>, req: Request, now: int): Option<Reply> {
    if snapshot.None? then Some(Refused(AuctionNotFound)) else
    match Validate(snapshot.value, req.amount, now)
    case Fail(e) => Some(Refused(e))
    case Pass => None
  }

  function OnLock(lock: LockAnswer): Option<Reply> {
    match lock
    case Acquired => None
    case Busy => Some(Refused(BidConflict))
    case Unreachable => Some(Refused(SystemProtect))
  }

  /** The answer of a call that stops before its transaction, from what the two unlocked reads
      and the lock service returned, however stale. */
  function BeforeTx(req: Request, record: Option<Record>, snapshot: Option<Auction>, now: int, lock: LockAnswer)
    : Option<Reply>
  {
    if BadRequest(req) then Some(Refused(InvalidParam))
    else if FromRecord(record, req).Some? then FromRecord(record, req)
    else if OnSnapshot(snapshot, req, now).Some? then OnSnapshot(snapshot, req, now)
    else OnLock(lock)
  }

  function AfterTx(db: Db, req: Request, now: int, dbNow: int, commit: CommitOutcome): (Db, Reply) {
    match PlaceTx(db, req, now, dbNow)
    case Abort(e) => (db, Refused(e))
    case Commit(d, r) =>
      match commit
      case Committed => (d, Accepted(r))
      case Lost(applied) => (if applied then d else db, Refused(Storage))
  }

  // ---- the lifecycle worker ----

  function StartEvent(auctionId: int, a: Auction): Event {
    Event(Scoped(auctionId, a.version + 1), auctionId, a.version + 1,
          AuctionStarted(Summary(a.currentPrice, a.endTime)))
  }

  predicate DueToStart(a: Auction, dbNow: int) {
    a.status == Pending && a.config.startTime <= dbNow
  }

  /** Starts the locked candidates in turn; the value is how many were started. */
  function StartTx(db: Db, ids: seq<int>, dbNow: int): Tx<nat> {
    if ids == [] then Commit(db, 0) else
    match StartTx(db, ids[..|ids| - 1], dbNow)
    case Abort(e) => Abort(e)
    case Commit(db1, n) =>
      var id := ids[|ids| - 1];
      if id !in db1.auctions || !DueToStart(db1.auctions[id], dbNow) then Commit(db1, n)
      else
        var a := db1.auctions[id];
        var e := StartEvent(id, a);
        if !Fits(db1.outbox, id, [e]) then Abort(Storage)
        else Commit(db1.(auctions := db1.auctions[id := a.(status := Active, version := a.version + 1)],
                         outbox := InsertEvents(db1.outbox, id, [e])), n + 1)
  }

  datatype EndResult = EndResult(ended: bool, orderId: Option<int>)

  function EndEvent(auctionId: int, a: Auction, orderId: Option<int>): Event {
    Event(Scoped(auctionId, a.version + 1), auctionId, a.version + 1,
          AuctionEnded(Some(Summary(a.currentPrice, a.endTime)), a.leaderId,
                       if a.leaderId.Some? then Some(a.currentPrice) else None, orderId))
  }

  function OrderFor(db: Db, a: Auction): Order
    requires a.leaderId.Some?
  {
    Order(db.nextOrderId, a.leaderId.value, a.config.sellerId, a.currentPrice)
  }

  predicate SameDeal(o: Order, p: Order) {
    o.winnerId == p.winnerId && o.sellerId == p.sellerId && o.finalPrice == p.finalPrice
  }

  function EndTx(db: Db, id: int, dbNow: int): Tx<EndResult> {
    if id !in db.auctions || db.auctions[id].status != Active || db.auctions[id].endTime > dbNow
    then Commit(db, EndResult(false, None)) else
    var a := db.auctions[id];
    var isNew := id !in db.orders;
    if a.leaderId.Some? && !isNew && !SameDeal(db.orders[id], OrderFor(db, a)) then Abort(OrderConflict) else
    var orders := if a.leaderId.Some? && isNew then db.orders[id := OrderFor(db, a)] else db.orders;
    var orderId := if a.leaderId.Some? then Some(orders[id].id) else None;
    var e := EndEvent(id, a, orderId);
    if !Fits(db.outbox, id, [e]) then Abort(Storage)
    else Commit(db.(auctions := db.auctions[id := a.(status := Ended, version := a.version + 1)],
                    orders := orders,
                    outbox := InsertEvents(db.outbox, id, [e]),
                    nextOrderId := if a.leaderId.Some? && isNew then db.nextOrderId + 1 else db.nextOrderId),
                EndResult(true, orderId))
  }

  /** What a transaction reports. */
  datatype Answer<+T> = Reported(value: T) | Faulted(error: Error)

  /** The tables and the report after the commit of a transaction; one that aborts does not get so far. */
  function Settle<T>(db: Db, tx: Tx<T>, commit: CommitOutcome): (Db, Answer<T>) {
    match tx
    case Abort(e) => (db, Faulted(e))
    case Commit(d, v) =>
      match commit
      case Committed => (d, Reported(v))
      case Lost(applied) => (if applied then d else db, Faulted(Storage))
  }

  /** A whole `EndOne`: one that finds nothing to end commits nothing. */
  function EndCall(db: Db, id: int, dbNow: int, commit: CommitOutcome): (Db, Answer<EndResult>) {
    var tx := EndTx(db, id, dbNow);
    if tx.Commit? && !tx.value.ended then (db, Reported(tx.value)) else Settle(db, tx, commit)
  }

  // ---- the seller ----

  function CancelEvent(auctionId: int, a: Auction): Event {
    Event(Bare(a.version + 1), auctionId, a.version + 1, AuctionCancelled)
  }

  function CancelTx(db: Db, id: int, sellerId: int): Tx<()> {
    if id !in db.auctions then Abort(AuctionNotFound) else
    var a := db.auctions[id];
    if a.config.sellerId != sellerId then Abort(Forbidden)
    else if a.status == Ended then Abort(AlreadyEnded)
    else if a.status == Cancelled then Abort(AlreadyCancelled)
    else
      var e := CancelEvent(id, a);
      if !Fits(db.outbox, id, [e]) then Abort(Storage)
      else Commit(db.(auctions := db.auctions[id := a.(status := Cancelled, version := a.version + 1)],
                      outbox := InsertEvents(db.outbox, id, [e])), ())
  }

  predicate PricesOk(startPrice: int, priceStep: int, ceiling: Option<int>) {
    startPrice >= 0 && priceStep > 0 && (ceiling.Some? ==> ceiling.value > 0 && ceiling.value >= startPrice)
  }

  /** Each limit the seller may set on creation or change while the auction is pending. */
  datatype Terms = Terms(
    startPrice: Option<int>,
    priceStep: Option<int>,
    ceilingPrice: Option<int>,
    startTime: Option<int>,
    durationSeconds: Option<int>,
    extendSeconds: Option<int>,
    extendThreshold: Option<int>)

  const UNCHANGED := Terms(None, None, None, None, None, None, None)

  function Or<T>(o: Option<T>, d: T): T {
    match o case Some(v) => v case None => d
  }

  predicate WithinLimits(t: Terms, now: int) {
    && (t.startTime.Some? ==> t.startTime.value > now)
    && (t.durationSeconds.Some? ==> 30 <= t.durationSeconds.value <= 86400)
    && (t.extendSeconds.Some? ==> 10 <= t.extendSeconds.value <= 30)
    && (t.extendThreshold.Some? ==> 1 <= t.extendThreshold.value <= 300)
  }

  /** Creation requires the prices, the start and the duration; the two extension limits default to 30. */
  function CreateTx(db: Db, id: int, sellerId: int, t: Terms, now: int): Tx<()> {
    if t.startPrice.None? || t.priceStep.None? || t.startTime.None? || t.durationSeconds.None?
       || !PricesOk(t.startPrice.value, t.priceStep.value, t.ceilingPrice) || !WithinLimits(t, now)
    then Abort(InvalidParam)
    else if id in db.auctions then Abort(Storage)
    else
      var end := t.startTime.value + t.durationSeconds.value * SECOND;
      Commit(db.(auctions := db.auctions[id :=
               Auction(Config(sellerId, t.startPrice.value, t.priceStep.value, t.ceilingPrice, t.startTime.value,
                              end, Or(t.extendSeconds, 30), Or(t.extendThreshold, 30)),
                       Pending, t.startPrice.value, None, 0, end, 0)]), ())
  }

  /** The row after the named columns of a pending auction have been rewritten. */
  function Revised(a: Auction, t: Terms): Auction {
    var start := Or(t.startTime, a.config.startTime);
    var seconds := Or(t.durationSeconds, (a.endTime - a.config.startTime) / SECOND);
    var end := if t.startTime.Some? || t.durationSeconds.Some? then Some(start + seconds * SECOND) else None;
    var config := Config(
      a.config.sellerId,
      Or(t.startPrice, a.config.startPrice),
      Or(t.priceStep, a.config.priceStep),
      if t.ceilingPrice.Some? then t.ceilingPrice else a.config.ceilingPrice,
      start,
      Or(end, a.config.originalEndTime),
      Or(t.extendSeconds, a.config.extendSeconds),
      Or(t.extendThreshold, a.config.extendThreshold));
    a.(config := config, currentPrice := Or(t.startPrice, a.currentPrice), endTime := Or(end, a.endTime))
  }

  function UpdateTx(db: Db, id: int, sellerId: int, t: Terms, now: int, dbNow: int): Tx<()> {
    if id !in db.auctions then Abort(AuctionNotFound) else
    var a := db.auctions[id];
    if a.config.sellerId != sellerId then Abort(Forbidden)
    else if a.status != Pending || a.config.startTime <= now then Abort(NotPending)
    else if !PricesOk(Revised(a, t).config.startPrice, Revised(a, t).config.priceStep,
                      Revised(a, t).config.ceilingPrice)
            || !WithinLimits(t, now) then Abort(InvalidParam)
    else if t == UNCHANGED then Commit(db, ())
    else if a.config.startTime <= dbNow then Abort(NotPending)
    else Commit(db.(auctions := db.auctions[id := Revised(a, t)]), ())
  }
}
