/** What each operation of the server does, said of the rows, events and answers it leaves behind. */
module Effects {
  import opened AuctionTypes
  import opened BidRules
  import opened Tables
  import opened AuctionInvariant
  import opened TransactionSafety

  // ---- the rules ----

  /** Each refusal of the rule, and the one amount that it names: the least that would not be too low. */
  lemma RefusalsTell(a: Auction, amount: int, now: int)
    ensures Validate(a, amount, now) == Fail(NotPending) <==> a.status == Pending
    ensures Validate(a, amount, now) == Fail(AlreadyCancelled) <==> a.status == Cancelled
    ensures Validate(a, amount, now) == Fail(AlreadyEnded)
            <==> a.status == Ended || (a.status == Active && a.endTime <= now)
    ensures Validate(a, amount, now).Fail? && Validate(a, amount, now).error.BidTooLow? ==>
              var m := Validate(a, amount, now).error.minimum;
              && amount < m
              && (forall x | x < m :: Validate(a, x, now) == Fail(BidTooLow(m)))
              && (forall x | x >= m :: Validate(a, x, now).Pass? || Validate(a, x, now) == Fail(OverCeiling))
    ensures Validate(a, amount, now) == Fail(OverCeiling) ==>
              a.config.ceilingPrice.Some? && amount > a.config.ceilingPrice.value
    ensures Validate(a, amount, now).Pass? ==> a.config.ceilingPrice.None? || amount <= a.config.ceilingPrice.value
    ensures Validate(a, amount, now).Pass? && a.bidCount == 0 && a.config.startPrice > 0 ==>
              amount >= a.config.startPrice
    ensures Validate(a, amount, now).Pass? && a.bidCount == 0 && a.config.startPrice <= 0 ==>
              amount >= a.config.priceStep
    ensures Validate(a, amount, now).Pass? && a.bidCount != 0 ==> amount - a.currentPrice >= a.config.priceStep
  {
  }

  /** The limits of a request, at their edges. */
  lemma RequestLimits(req: Request)
    requires req.auctionId > 0 && req.amount > 0
    ensures BadRequest(req) <==> !(1 <= |req.key| <= 128)
    ensures BadRequest(req.(auctionId := 0)) && BadRequest(req.(amount := 0))
  {
  }

  // ---- bids ----

  /** What an accepted bid's answer tells: it is the row, the order and the bid as the transaction left them. */
  predicate AnswerTells(d: Db, req: Request, r: BidResult, now: int)
    requires req.auctionId in d.auctions
  {
    var b := d.auctions[req.auctionId];
    && d.bids != [] && Last(d.bids) == r.bid
    && r.bid.auctionId == req.auctionId && r.bid.userId == req.userId
    && r.bid.amount == req.amount && r.bid.key == req.key
    && r.auctionVersion == b.version
    && r.currentPrice == b.currentPrice == req.amount
    && b.leaderId == Some(r.currentLeader) && r.currentLeader == req.userId
    && r.newEndTime == b.endTime
    && r.serverTime == now
    && (r.ceilingHit <==> b.status == Ended)
    && r.orderId == (if req.auctionId in d.orders then Some(d.orders[req.auctionId].id) else None)
  }

  /** What the events of an accepted bid tell. */
  predicate EventsTell(db: Db, d: Db, req: Request, r: BidResult)
    requires req.auctionId in db.auctions && req.auctionId in d.auctions
  {
    var a, b := db.auctions[req.auctionId], d.auctions[req.auctionId];
    var log, log' := LogOf(db, req.auctionId), LogOf(d, req.auctionId);
    && log < log'
    && log'[|log|].body == BidUpdate(b.version, b.currentPrice, r.currentLeader, r.bid)
    && |log'| == |log| + (if r.ceilingHit || r.extended then 2 else 1)
    && (r.extended ==> log'[|log| + 1].body == AuctionExtended(b.endTime, a.config.extendSeconds))
    && (r.ceilingHit ==>
         log'[|log| + 1].body == AuctionEnded(None, b.leaderId, Some(b.currentPrice), r.orderId))
  }

  /** Where the deadline goes: a ceiling bid ends the auction now, a late one extends it, any other leaves it. */
  predicate DeadlineMoves(a: Auction, b: Auction, r: BidResult, now: int) {
    && !(r.ceilingHit && r.extended)
    && b.endTime == (if r.ceilingHit then now
                     else if r.extended then a.endTime + a.config.extendSeconds * SECOND else a.endTime)
    && (r.ceilingHit <==> a.config.ceilingPrice == Some(b.currentPrice))
    && (r.extended <==> !r.ceilingHit && a.endTime - now <= a.config.extendThreshold * SECOND)
  }

  lemma PlaceTells(db: Db, req: Request, now: int, dbNow: int)
    requires DbInv(db) && KeyOf(req) !in db.keys && PlaceTx(db, req, now, dbNow).Commit?
    ensures var d, r := PlaceTx(db, req, now, dbNow).db, PlaceTx(db, req, now, dbNow).value;
            && req.auctionId in db.auctions && req.auctionId in d.auctions
            && AnswerTells(d, req, r, now)
            && EventsTell(db, d, req, r)
            && DeadlineMoves(db.auctions[req.auctionId], d.auctions[req.auctionId], r, now)
  {
    hide SliceInv, NoHoles, KeysOk, LogOf, AcceptTx, PlaceTx, Validate, AcceptWhere, PlaceEvents;
    NewKey(db, req, now, dbNow);
    AcceptWrites(db, req, now, dbNow);
    AcceptSlices(db, req, now, dbNow);
    var a := db.auctions[req.auctionId];
    var d := PlaceTx(db, req, now, dbNow).db;
    EventsOfPlan(req.auctionId, a, NewBid(db, req), now, db.nextOrderId);
    assert SliceOf(d, req.auctionId).log == LogOf(d, req.auctionId);
    BidderHasNoOrder(req.auctionId, SliceOf(db, req.auctionId), req, now);
  }

  lemma BidderHasNoOrder(id: int, s: Slice, req: Request, now: int)
    requires SliceInv(id, s) && Validate(s.row, req.amount, now).Pass?
    ensures s.order == None && s.row.status == Active
  {
  }

  /** Each refusal of a bid's transaction on a new key, and that on a known one; all of them leave the tables alone. */
  lemma PlaceRefuses(db: Db, req: Request, now: int, dbNow: int)
    requires DbInv(db)
    ensures KeyOf(req) !in db.keys && req.auctionId !in db.auctions ==>
              PlaceTx(db, req, now, dbNow) == Abort(AuctionNotFound)
    ensures KeyOf(req) !in db.keys && req.auctionId in db.auctions ==>
              var a := db.auctions[req.auctionId];
              match Validate(a, req.amount, now)
              case Fail(e) => PlaceTx(db, req, now, dbNow) == Abort(e)
              case Pass => PlaceTx(db, req, now, dbNow) == Abort(BidConflict) <==> !AcceptWhere(a, req.amount, dbNow)
    ensures KeyOf(req) in db.keys ==>
              (PlaceTx(db, req, now, dbNow) == Abort(IdempotencyConflict)
               <==> db.keys[KeyOf(req)].fingerprint.amount != req.amount)
  {
    hide SliceInv, NoHoles, KeysOk, Validate, AcceptWhere, AcceptTx;
    if KeyOf(req) in db.keys {
      KnownKey(db, req);
    } else {
      NewKey(db, req, now, dbNow);
      if req.auctionId in db.auctions && !AcceptWhere(db.auctions[req.auctionId], req.amount, dbNow) {
        RefusedByWhere(db, req, now, dbNow);
      }
    }
  }

  lemma RefusedByWhere(db: Db, req: Request, now: int, dbNow: int)
    requires req.auctionId in db.auctions && !AcceptWhere(db.auctions[req.auctionId], req.amount, dbNow)
    ensures AcceptTx(db, req, db.auctions[req.auctionId], now, dbNow) == Abort(BidConflict)
  {
  }

  /** Only a finished record of the same request answers it; another request under its key is a conflict. */
  lemma RecordTells(record: Record, req: Request)
    ensures FromRecord(None, req) == None
    ensures FromRecord(Some(record), req) == Some(Refused(IdempotencyConflict))
            <==> record.fingerprint.auctionId != req.auctionId || record.fingerprint.amount != req.amount
    ensures forall r ::
              (FromRecord(Some(record), req) == Some(Accepted(r))
               <==> record == Record(Fingerprint(req.auctionId, req.amount), Some(r), Succeeded))
  {
  }

  /** Why a call may stop before its transaction, and with what answer. */
  lemma StopsEarly(req: Request, record: Option<Record>, snapshot: Option<Auction>, now: int, lock: LockAnswer)
    ensures BadRequest(req) ==> BeforeTx(req, record, snapshot, now, lock) == Some(Refused(InvalidParam))
    ensures !BadRequest(req) && FromRecord(record, req) == None ==>
              match snapshot
              case None => BeforeTx(req, record, snapshot, now, lock) == Some(Refused(AuctionNotFound))
              case Some(a) =>
                match Validate(a, req.amount, now)
                case Fail(e) => BeforeTx(req, record, snapshot, now, lock) == Some(Refused(e))
                case Pass =>
                  BeforeTx(req, record, snapshot, now, lock)
                  == match lock
                     case Acquired => None
                     case Busy => Some(Refused(BidConflict))
                     case Unreachable => Some(Refused(SystemProtect))
  {
  }

  // ---- the worker ----

  /** A due auction is ended, with or without a leader; any other is left alone and not reported. */
  lemma EndEnds(db: Db, id: int, dbNow: int)
    requires DbInv(db)
    ensures var tx := EndTx(db, id, dbNow);
            && tx.Commit?
            && (tx.value.ended <==>
                 id in db.auctions && db.auctions[id].status == Active && db.auctions[id].endTime <= dbNow)
            && (!tx.value.ended ==> tx.db == db && tx.value.orderId == None)
            && (tx.value.ended ==>
                 && id in tx.db.auctions
                 && var a, log := db.auctions[id], LogOf(db, id);
                 && tx.db.auctions == db.auctions[id := a.(status := Ended, version := a.version + 1)]
                 && tx.value.orderId == (if id in tx.db.orders then Some(tx.db.orders[id].id) else None)
                 && (id in tx.db.orders <==> a.leaderId.Some?)
                 && LogOf(tx.db, id) == log + [Event(Scoped(id, a.version + 1), id, a.version + 1,
                      AuctionEnded(Some(Summary(a.currentPrice, a.endTime)), a.leaderId,
                                   if a.leaderId.Some? then Some(a.currentPrice) else None, tx.value.orderId))])
  {
    hide SliceInv, KeysOk, NoHoles, BidsOf, Grows, InsertEvents, Fits;
    EndKeeps(db, id, dbNow);
    if id in db.auctions && db.auctions[id].status == Active && db.auctions[id].endTime <= dbNow {
      NoOrderWhileActive(id, SliceOf(db, id));
      EndLogs(db, id, dbNow);
    }
  }

  lemma EndLogs(db: Db, id: int, dbNow: int)
    requires DbInv(db) && id in db.auctions && db.auctions[id].status == Active && db.auctions[id].endTime <= dbNow
    requires id !in db.orders && EndTx(db, id, dbNow).Commit?
    ensures id in EndTx(db, id, dbNow).db.auctions
    ensures LogOf(EndTx(db, id, dbNow).db, id)
            == LogOf(db, id) + [EndEvent(id, db.auctions[id], EndTx(db, id, dbNow).value.orderId)]
  {
    hide SliceInv, KeysOk, NoHoles, BidsOf;
    var a := db.auctions[id];
    var e := EndEvent(id, a, EndTx(db, id, dbNow).value.orderId);
    InsertExtends(db.outbox, id, a.version, [e]);
  }

  predicate StartsIn(db: Db, ids: seq<int>, dbNow: int, k: int)
    requires k in db.auctions
  {
    k in ids && db.auctions[k].status == Pending && db.auctions[k].config.startTime <= dbNow
  }

  function Started(db: Db, ids: seq<int>, dbNow: int): set<int> {
    set k | k in db.auctions && StartsIn(db, ids, dbNow, k)
  }

  /** Auction k after it was started: active, one version on, with its start event. */
  predicate IsStarted(db: Db, d: Db, k: int)
    requires k in db.auctions && k in d.auctions
  {
    var a := db.auctions[k];
    && d.auctions[k] == a.(status := Active, version := a.version + 1)
    && LogOf(d, k) == LogOf(db, k) + [Event(Scoped(k, a.version + 1), k, a.version + 1,
                                            AuctionStarted(Summary(a.currentPrice, a.endTime)))]
  }

  predicate IsSame(db: Db, d: Db, k: int)
    requires k in db.auctions && k in d.auctions
  {
    d.auctions[k] == db.auctions[k] && LogOf(d, k) == LogOf(db, k)
  }

  lemma StartOne(db: Db, id: int, dbNow: int)
    requires DbInv(db) && id in db.auctions && DueToStart(db.auctions[id], dbNow)
    ensures var a := db.auctions[id];
            var d := db.(auctions := db.auctions[id := a.(status := Active, version := a.version + 1)],
                         outbox := InsertEvents(db.outbox, id, [StartEvent(id, a)]));
            IsStarted(db, d, id) && forall k | k in db.auctions && k != id :: IsSame(db, d, k)
  {
    hide SliceInv, KeysOk, NoHoles, BidsOf, LogOf, InsertEvents, Fits;
    var a := db.auctions[id];
    var d := db.(auctions := db.auctions[id := a.(status := Active, version := a.version + 1)],
                 outbox := InsertEvents(db.outbox, id, [StartEvent(id, a)]));
    OneEventSlices(db, d, id, StartEvent(id, a));
    assert LogOf(d, id) == SliceOf(d, id).log;
    forall k | k in db.auctions && k != id
      ensures IsSame(db, d, k)
    {
      assert SliceOf(d, k) == SliceOf(db, k);
    }
  }

  ghost predicate Starts(db: Db, d: Db, ids: seq<int>, dbNow: int) {
    && d.auctions.Keys == db.auctions.Keys
    && (forall k | k in db.auctions :: if StartsIn(db, ids, dbNow, k) then IsStarted(db, d, k) else IsSame(db, d, k))
  }

  /** Of the locked candidates exactly the due ones are started, each with its event; the count counts them. */
  lemma {:induction false} StartStarts(db: Db, ids: seq<int>, dbNow: int)
    requires DbInv(db)
    ensures var tx := StartTx(db, ids, dbNow);
            tx.Commit? && Starts(db, tx.db, ids, dbNow) && tx.value == |Started(db, ids, dbNow)|
    decreases |ids|
  {
    hide DbInv, Grows, InsertEvents, Fits, LogOf, Starts, Started;
    StartKeeps(db, ids, dbNow);
    if ids == [] {
      NoneStarted(db, dbNow);
    } else {
      var front, id := ids[..|ids| - 1], ids[|ids| - 1];
      StartStarts(db, front, dbNow);
      StartKeeps(db, front, dbNow);
      var d := StartTx(db, front, dbNow).db;
      assert front + [id] == ids;
      if id in d.auctions && DueToStart(d.auctions[id], dbNow) {
        StartOne(d, id, dbNow);
      }
      OneMoreStart(db, d, StartTx(db, ids, dbNow).db, front, id, dbNow);
    }
  }

  lemma NoneStarted(db: Db, dbNow: int)
    ensures Starts(db, db, [], dbNow) && |Started(db, [], dbNow)| == 0
  {
    assert Started(db, [], dbNow) == {};
  }

  lemma OneMoreStart(db: Db, d: Db, d': Db, front: seq<int>, id: int, dbNow: int)
    requires Starts(db, d, front, dbNow) && d'.auctions.Keys == d.auctions.Keys
    requires if id in d.auctions && DueToStart(d.auctions[id], dbNow)
             then IsStarted(d, d', id) && forall k | k in d.auctions && k != id :: IsSame(d, d', k)
             else d' == d
    ensures Starts(db, d', front + [id], dbNow)
    ensures |Started(db, front + [id], dbNow)|
            == |Started(db, front, dbNow)| + if id in d.auctions && DueToStart(d.auctions[id], dbNow) then 1 else 0
  {
    hide LogOf;
    assert forall k :: k in front + [id] <==> k in front || k == id;
    var was, now := Started(db, front, dbNow), Started(db, front + [id], dbNow);
    if id in d.auctions && DueToStart(d.auctions[id], dbNow) {
      assert !StartsIn(db, front, dbNow, id);
      assert now == was + {id};
    } else {
      assert now == was;
    }
  }

  // ---- commits ----

  /** A lost commit leaves what the commit would have left, or nothing, and is reported as an error. */
  lemma LostCommits<T>(db: Db, tx: Tx<T>)
    ensures Settle(db, tx, Lost(true)).0 == Settle(db, tx, Committed).0
    ensures Settle(db, tx, Lost(false)).0 == db
    ensures forall commit :: Settle(db, tx, commit).1.Reported? <==> tx.Commit? && commit == Committed
    ensures tx.Abort? ==> forall commit :: Settle(db, tx, commit) == (db, Faulted(tx.error))
  {
  }

  /** The same of a bid. */
  lemma LostBids(db: Db, req: Request, now: int, dbNow: int)
    ensures AfterTx(db, req, now, dbNow, Lost(true)).0 == AfterTx(db, req, now, dbNow, Committed).0
    ensures AfterTx(db, req, now, dbNow, Lost(false)).0 == db
    ensures forall commit :: AfterTx(db, req, now, dbNow, commit).1.Accepted?
                             <==> PlaceTx(db, req, now, dbNow).Commit? && commit == Committed
  {
    hide PlaceTx;
  }

  // ---- the seller ----

  /** Each way a cancel can go, and the one that commits. */
  lemma CancelCancels(db: Db, id: int, sellerId: int)
    requires DbInv(db)
    ensures CancelTx(db, id, sellerId) == Abort(AuctionNotFound) <==> id !in db.auctions
    ensures CancelTx(db, id, sellerId) == Abort(Forbidden)
            <==> id in db.auctions && db.auctions[id].config.sellerId != sellerId
    ensures CancelTx(db, id, sellerId) == Abort(AlreadyEnded)
            <==> id in db.auctions && db.auctions[id].config.sellerId == sellerId && db.auctions[id].status == Ended
    ensures CancelTx(db, id, sellerId) == Abort(AlreadyCancelled)
            <==> id in db.auctions && db.auctions[id].config.sellerId == sellerId && db.auctions[id].status == Cancelled
    ensures CancelTx(db, id, sellerId).Commit?
            <==> id in db.auctions && db.auctions[id].config.sellerId == sellerId && !Over(db.auctions[id].status)
    ensures CancelTx(db, id, sellerId).Commit? ==>
              var a, d := db.auctions[id], CancelTx(db, id, sellerId).db;
              && d.auctions == db.auctions[id := a.(status := Cancelled, version := a.version + 1)]
              && d.bids == db.bids && d.orders == db.orders && d.keys == db.keys
              && LogOf(d, id) == LogOf(db, id) + [Event(Bare(a.version + 1), id, a.version + 1, AuctionCancelled)]
  {
    hide SliceInv, KeysOk, NoHoles, BidsOf, Grows, InsertEvents, Fits, LogOf;
    CancelKeeps(db, id, sellerId);
    CancelFits(db, id, sellerId);
  }

  lemma CancelFits(db: Db, id: int, sellerId: int)
    requires DbInv(db)
    ensures id in db.auctions ==> Fits(db.outbox, id, [CancelEvent(id, db.auctions[id])])
    ensures CancelTx(db, id, sellerId).Commit? ==>
              LogOf(CancelTx(db, id, sellerId).db, id) == LogOf(db, id) + [CancelEvent(id, db.auctions[id])]
  {
    hide SliceInv, KeysOk, BidsOf;
    if id in db.auctions {
      InsertExtends(db.outbox, id, db.auctions[id].version, [CancelEvent(id, db.auctions[id])]);
    }
  }

  /** Limits that a seller may set: what is unset is not checked. */
  lemma LimitsAtTheirEdges(t: Terms, now: int)
    ensures WithinLimits(UNCHANGED, now)
    ensures WithinLimits(UNCHANGED.(startTime := Some(now + 1)), now) && !WithinLimits(t.(startTime := Some(now)), now)
    ensures forall n :: WithinLimits(UNCHANGED.(durationSeconds := Some(n)), now) <==> 30 <= n <= 86400
    ensures forall n :: WithinLimits(UNCHANGED.(extendSeconds := Some(n)), now) <==> 10 <= n <= 30
    ensures forall n :: WithinLimits(UNCHANGED.(extendThreshold := Some(n)), now) <==> 1 <= n <= 300
  {
  }

  /** What creation admits, and the auction it makes. */
  lemma CreateCreates(db: Db, id: int, sellerId: int, t: Terms, now: int)
    ensures CreateTx(db, id, sellerId, t, now).Commit?
            <==> && id !in db.auctions
                 && t.startPrice.Some? && t.priceStep.Some? && t.startTime.Some? && t.durationSeconds.Some?
                 && t.startPrice.value >= 0 && t.priceStep.value > 0
                 && (t.ceilingPrice.Some? ==> t.ceilingPrice.value > 0 && t.ceilingPrice.value >= t.startPrice.value)
                 && WithinLimits(t, now)
    ensures CreateTx(db, id, sellerId, t, now).Commit? ==>
              var d := CreateTx(db, id, sellerId, t, now).db;
              && d == db.(auctions := d.auctions) && d.auctions.Keys == db.auctions.Keys + {id}
              && (forall k | k in db.auctions :: d.auctions[k] == db.auctions[k])
              && var a := d.auctions[id];
              && a.status == Pending && a.version == 0 && a.bidCount == 0 && a.leaderId == None
              && a.config.sellerId == sellerId
              && a.currentPrice == a.config.startPrice == t.startPrice.value
              && a.config.priceStep == t.priceStep.value && a.config.ceilingPrice == t.ceilingPrice
              && a.config.startTime == t.startTime.value > now
              && a.endTime == a.config.originalEndTime == a.config.startTime + t.durationSeconds.value * SECOND
              && (t.extendSeconds.Some? ==> a.config.extendSeconds == t.extendSeconds.value)
              && (t.extendThreshold.Some? ==> a.config.extendThreshold == t.extendThreshold.value)
              && (t.extendSeconds.None? ==> a.config.extendSeconds == 30)
              && (t.extendThreshold.None? ==> a.config.extendThreshold == 30)
  {
  }

  /** A named term has its new value, any other the old one. */
  predicate Revises(o: Option<int>, before: int, after: int) {
    after == if o.Some? then o.value else before
  }

  /** The row after an update: what was named, and a deadline that follows start and duration. */
  predicate IsRevised(a: Auction, b: Auction, t: Terms) {
    && b == a.(config := b.config, currentPrice := b.currentPrice, endTime := b.endTime)
    && b.config.sellerId == a.config.sellerId
    && Revises(t.startPrice, a.config.startPrice, b.config.startPrice)
    && Revises(t.startPrice, a.currentPrice, b.currentPrice)
    && Revises(t.priceStep, a.config.priceStep, b.config.priceStep)
    && b.config.ceilingPrice == (if t.ceilingPrice.Some? then t.ceilingPrice else a.config.ceilingPrice)
    && Revises(t.startTime, a.config.startTime, b.config.startTime)
    && Revises(t.extendSeconds, a.config.extendSeconds, b.config.extendSeconds)
    && Revises(t.extendThreshold, a.config.extendThreshold, b.config.extendThreshold)
    && (t.startTime.None? && t.durationSeconds.None? ==>
         b.endTime == a.endTime && b.config.originalEndTime == a.config.originalEndTime)
    && (t.startTime.Some? || t.durationSeconds.Some? ==> b.endTime == b.config.originalEndTime)
    && (t.durationSeconds.Some? ==> b.endTime - b.config.startTime == t.durationSeconds.value * SECOND)
    && (t.startTime.Some? && t.durationSeconds.None? ==>
         0 <= (a.endTime - a.config.startTime) - (b.endTime - b.config.startTime) < SECOND
         && (b.endTime - b.config.startTime) % SECOND == 0)
  }

  /** Each way an update can go, and what it makes of a pending auction. */
  lemma UpdateUpdates(db: Db, id: int, sellerId: int, t: Terms, now: int, dbNow: int)
    ensures UpdateTx(db, id, sellerId, t, now, dbNow) == Abort(AuctionNotFound) <==> id !in db.auctions
    ensures UpdateTx(db, id, sellerId, t, now, dbNow) == Abort(Forbidden)
            <==> id in db.auctions && db.auctions[id].config.sellerId != sellerId
    ensures UpdateTx(db, id, sellerId, t, now, dbNow).Commit? ==>
              && id in db.auctions && db.auctions[id].config.sellerId == sellerId
              && db.auctions[id].status == Pending && now < db.auctions[id].config.startTime
              && WithinLimits(t, now) && (t != UNCHANGED ==> dbNow < db.auctions[id].config.startTime)
              && var d := UpdateTx(db, id, sellerId, t, now, dbNow).db;
              && d == db.(auctions := d.auctions) && d.auctions.Keys == db.auctions.Keys
              && (forall k | k in db.auctions && k != id :: d.auctions[k] == db.auctions[k])
              && IsRevised(db.auctions[id], d.auctions[id], t)
              && var c := d.auctions[id].config;
              && c.startPrice >= 0 && c.priceStep > 0
              && (c.ceilingPrice.Some? ==> c.ceilingPrice.value > 0 && c.ceilingPrice.value >= c.startPrice)
    ensures id in db.auctions && db.auctions[id].config.sellerId == sellerId
            && (db.auctions[id].status != Pending || db.auctions[id].config.startTime <= now) ==>
              UpdateTx(db, id, sellerId, t, now, dbNow) == Abort(NotPending)
    ensures id in db.auctions && db.auctions[id].config.sellerId == sellerId && db.auctions[id].status == Pending
            && now < db.auctions[id].config.startTime && WithinLimits(t, now)
            && PricesOk(Revised(db.auctions[id], t).config.startPrice, Revised(db.auctions[id], t).config.priceStep,
                        Revised(db.auctions[id], t).config.ceilingPrice)
            && (t == UNCHANGED || dbNow < db.auctions[id].config.startTime) ==>
              UpdateTx(db, id, sellerId, t, now, dbNow).Commit?
  {
    hide WithinLimits;
    if id in db.auctions {
      RevisedRow(db.auctions[id], t);
    }
  }

  lemma RevisedRow(a: Auction, t: Terms)
    ensures IsRevised(a, Revised(a, t), t)
    ensures t == UNCHANGED ==> Revised(a, t) == a
  {
    var seconds := (a.endTime - a.config.startTime) / SECOND;
    assert a.endTime - a.config.startTime == seconds * SECOND + (a.endTime - a.config.startTime) % SECOND;
    assert (seconds * SECOND) % SECOND == 0;
  }

  // ---- identifiers ----

  /** Bids and orders are numbered on, so no two of them share a number. */
  predicate IdsOk(db: Db) {
    && (forall i, j | 0 <= i < j < |db.bids| :: db.bids[i].id < db.bids[j].id)
    && (forall i | 0 <= i < |db.bids| :: db.bids[i].id < db.nextBidId)
    && (forall k | k in db.orders :: db.orders[k].id < db.nextOrderId)
    && (forall j, k | j in db.orders && k in db.orders && db.orders[j].id == db.orders[k].id :: j == k)
  }

  lemma PlaceNumbers(db: Db, req: Request, now: int, dbNow: int)
    requires IdsOk(db) && PlaceTx(db, req, now, dbNow).Commit?
    ensures IdsOk(PlaceTx(db, req, now, dbNow).db)
  {
    hide InsertEvents, Fits, Validate, AcceptWhere, PlaceEvents, PlanOf, BidRow, FromRecord, DuplicateBid;
  }

  lemma EndNumbers(db: Db, id: int, dbNow: int)
    requires IdsOk(db) && EndTx(db, id, dbNow).Commit?
    ensures IdsOk(EndTx(db, id, dbNow).db)
  {
    hide InsertEvents, Fits;
  }

  lemma {:induction false} StartNumbers(db: Db, ids: seq<int>, dbNow: int)
    requires StartTx(db, ids, dbNow).Commit?
    ensures var d := StartTx(db, ids, dbNow).db;
            && d.bids == db.bids && d.orders == db.orders && d.keys == db.keys
            && d.nextBidId == db.nextBidId && d.nextOrderId == db.nextOrderId
    decreases |ids|
  {
    hide InsertEvents, Fits;
    if ids != [] {
      StartNumbers(db, ids[..|ids| - 1], dbNow);
    }
  }
}
