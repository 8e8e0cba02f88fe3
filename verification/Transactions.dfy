/** Every transaction keeps the invariant of the whole database, never meets a duplicate of a unique key,
    and moves each auction only forwards. */
module TransactionSafety {
  import opened AuctionTypes
  import opened BidRules
  import opened Tables
  import opened AuctionInvariant

  predicate Over(s: Status) {
    s == Ended || s == Cancelled
  }

  /** What any number of transactions may do to a row. */
  predicate Evolves(a: Auction, b: Auction) {
    && b.config.sellerId == a.config.sellerId
    && a.version <= b.version
    && (Over(a.status) ==> b == a)
    && (a.status != Pending ==>
         && b.status != Pending
         && b.config == a.config
         && a.bidCount <= b.bidCount
         && a.currentPrice <= b.currentPrice
         && (b.status == Active ==> a.endTime <= b.endTime))
  }

  /** What any number of transactions may add to a log. None begins with an extension, which only follows its bid. */
  predicate Continues(log: seq<Event>, log': seq<Event>) {
    log <= log' && (|log| < |log'| ==> !log'[|log|].body.AuctionExtended?)
  }

  /** Rows evolve; bids, orders, key records and events are only ever added. */
  ghost predicate Grows(db: Db, d: Db) {
    && (forall id | id in db.auctions :: id in d.auctions && Evolves(db.auctions[id], d.auctions[id]))
    && (forall id | id in db.auctions :: id in d.auctions && Continues(LogOf(db, id), LogOf(d, id)))
    && db.bids <= d.bids
    && (forall id | id in db.orders :: id in d.orders && d.orders[id] == db.orders[id])
    && (forall k | k in db.keys :: k in d.keys && d.keys[k] == db.keys[k])
  }

  lemma GrowsTransitive(a: Db, b: Db, c: Db)
    requires Grows(a, b) && Grows(b, c)
    ensures Grows(a, c)
  {
    forall id | id in a.auctions
      ensures id in c.auctions && Continues(LogOf(a, id), LogOf(c, id)) && Evolves(a.auctions[id], c.auctions[id])
    {
      assert Continues(LogOf(a, id), LogOf(b, id)) && Continues(LogOf(b, id), LogOf(c, id));
      assert Evolves(a.auctions[id], b.auctions[id]) && Evolves(b.auctions[id], c.auctions[id]);
    }
  }

  lemma GrowsReflexive(db: Db)
    ensures Grows(db, db)
  {
  }

  /** The writes of a transaction on one auction: its row, its next events, at most one bid, its order. */
  ghost predicate Writes(db: Db, d: Db, id: int, events: seq<Event>, added: seq<Bid>) {
    && id in db.auctions && id in d.auctions
    && d.auctions == db.auctions[id := d.auctions[id]]
    && d.auctions[id].version == db.auctions[id].version + |events|
    && (forall i | 0 <= i < |events| :: events[i].eventSeq == db.auctions[id].version + 1 + i)
    && d.outbox == InsertEvents(db.outbox, id, events)
    && |added| <= 1 && d.bids == db.bids + added && (forall b | b in added :: b.auctionId == id)
    && (forall k | k != id :: Lookup(d.orders, k) == Lookup(db.orders, k))
  }

  lemma OneAuction(db: Db, d: Db, id: int, events: seq<Event>, added: seq<Bid>)
    requires NoHoles(db) && Writes(db, d, id, events, added)
    ensures NoHoles(d) && Fits(db.outbox, id, events)
    ensures SliceOf(d, id) == Slice(d.auctions[id], BidsOf(db.bids, id) + added, Lookup(d.orders, id),
                                    LogOf(db, id) + events)
    ensures forall k | k in db.auctions && k != id :: SliceOf(d, k) == SliceOf(db, k)
  {
    InsertExtends(db.outbox, id, db.auctions[id].version, events);
    forall k | k in db.auctions
      ensures BidsOf(d.bids, k) == BidsOf(db.bids, k) + if k == id then added else []
    {
      if added != [] {
        assert added == [added[0]];
        assert added[0] in added;
        BidsOfSnoc(db.bids, added[0], k);
      } else {
        assert d.bids == db.bids;
      }
    }
    forall k | k in db.auctions && k != id
      ensures LogOf(d, k) == LogOf(db, k) && SliceOf(d, k) == SliceOf(db, k)
    {
    }
  }

  /** Only the slice of auction `id` changed, by additions and a forward move of its row. */
  ghost predicate OnlyAuction(db: Db, d: Db, id: int) {
    && id in db.auctions && d.auctions.Keys == db.auctions.Keys
    && (forall k | k in db.auctions && k != id :: SliceOf(d, k) == SliceOf(db, k))
    && Evolves(db.auctions[id], d.auctions[id]) && Continues(LogOf(db, id), LogOf(d, id))
    && d.orders.Keys <= db.orders.Keys + {id}
    && (id in db.orders ==> id in d.orders && d.orders[id] == db.orders[id])
    && db.bids <= d.bids
    && (forall i | |db.bids| <= i < |d.bids| :: d.bids[i].auctionId == id)
    && (forall k | k in db.keys :: k in d.keys && d.keys[k] == db.keys[k])
  }

  /** If one slice changed, and well, the whole database is as good as before. */
  lemma OneSlice(db: Db, d: Db, id: int)
    requires DbInv(db) && NoHoles(d) && KeysOk(d)
    requires OnlyAuction(db, d, id) && SliceInv(id, SliceOf(d, id))
    ensures DbInv(d) && Grows(db, d)
  {
    hide SliceInv, KeysOk, NoHoles;
    forall k | k in db.auctions
      ensures SliceInv(k, SliceOf(d, k)) && Continues(LogOf(db, k), LogOf(d, k))
      ensures Evolves(db.auctions[k], d.auctions[k])
    {
      if k != id {
        assert SliceOf(d, k) == SliceOf(db, k) && SliceInv(k, SliceOf(db, k));
      }
    }
    forall k | k in db.orders
      ensures k in d.orders && d.orders[k] == db.orders[k]
    {
      if k != id {
        assert SliceOf(d, k) == SliceOf(db, k);
      }
    }
  }

  // ---- bids ----

  /** A key record that has been committed settles every later request with that key. */
  lemma KnownKey(db: Db, req: Request)
    requires KeysOk(db) && KeyOf(req) in db.keys
    ensures FromRecord(Lookup(db.keys, KeyOf(req)), req).Some?
    ensures var reply := FromRecord(Lookup(db.keys, KeyOf(req)), req).value;
            match reply
            case Refused(e) => e == IdempotencyConflict && db.keys[KeyOf(req)].fingerprint.amount != req.amount
            case Accepted(r) => db.keys[KeyOf(req)].response == Some(r) && r.bid in db.bids
                                && r.bid.amount == req.amount && BidKey(r.bid) == KeyOf(req)
                                && db.keys[KeyOf(req)].fingerprint.amount == req.amount
  {
    var i :| 0 <= i < |db.bids| && BidKey(db.bids[i]) == KeyOf(req);
    assert Answered(db, db.bids[i]);
  }

  /** On a new key the bid's inserts cannot fail: the transaction is its three checks. */
  lemma NewKey(db: Db, req: Request, now: int, dbNow: int)
    requires DbInv(db) && KeyOf(req) !in db.keys
    ensures !DuplicateBid(db.bids, KeyOf(req))
    ensures PlaceTx(db, req, now, dbNow).Commit?
       <==> && req.auctionId in db.auctions
            && Validate(db.auctions[req.auctionId], req.amount, now).Pass?
            && AcceptWhere(db.auctions[req.auctionId], req.amount, dbNow)
    ensures PlaceTx(db, req, now, dbNow).Commit? ==>
              PlaceTx(db, req, now, dbNow) == AcceptTx(db, req, db.auctions[req.auctionId], now, dbNow)
    ensures PlaceTx(db, req, now, dbNow).Abort? ==>
              PlaceTx(db, req, now, dbNow).error != Error.Storage
  {
    forall i | 0 <= i < |db.bids|
      ensures BidKey(db.bids[i]) != KeyOf(req)
    {
      assert Answered(db, db.bids[i]);
    }
    if req.auctionId in db.auctions && Validate(db.auctions[req.auctionId], req.amount, now).Pass? {
      var a := db.auctions[req.auctionId];
      assert SliceInv(req.auctionId, SliceOf(db, req.auctionId));
      var bid := Bid(db.nextBidId, req.auctionId, req.userId, req.amount, req.key);
      EventCountMatches(req.auctionId, a, bid, now, db.nextOrderId);
    }
  }

  function NewBid(db: Db, req: Request): Bid {
    Bid(db.nextBidId, req.auctionId, req.userId, req.amount, req.key)
  }

  function NewResult(db: Db, req: Request, now: int): BidResult
    requires req.auctionId in db.auctions
  {
    var a := db.auctions[req.auctionId];
    ResultOf(a, NewBid(db, req), PlanOf(a, req.amount, now), now, db.nextOrderId)
  }

  lemma AcceptWrites(db: Db, req: Request, now: int, dbNow: int)
    requires DbInv(db) && PlaceTx(db, req, now, dbNow).Commit? && KeyOf(req) !in db.keys
    ensures req.auctionId in db.auctions
    ensures var d := PlaceTx(db, req, now, dbNow).db;
            var a := db.auctions[req.auctionId];
            && PlaceTx(db, req, now, dbNow).value == NewResult(db, req, now)
            && Writes(db, d, req.auctionId, PlaceEvents(req.auctionId, a, NewResult(db, req, now)), [NewBid(db, req)])
            && d.auctions[req.auctionId] == BidRow(a, req.userId, req.amount, PlanOf(a, req.amount, now))
            && d.keys == db.keys[KeyOf(req) := Record(FingerprintOf(req), Some(NewResult(db, req, now)), Succeeded)]
            && d.orders == if PlanOf(a, req.amount, now).ceilingHit
                           then db.orders[req.auctionId :=
                                     Order(db.nextOrderId, req.userId, a.config.sellerId, req.amount)]
                           else db.orders
  {
    hide SliceInv, NoHoles, KeysOk, Validate, AcceptWhere, PlanOf, PlaceEvents;
    NewKey(db, req, now, dbNow);
    var a := db.auctions[req.auctionId];
    EventCountMatches(req.auctionId, a, NewBid(db, req), now, db.nextOrderId);
  }

  /** The tables after a new bid, auction by auction. */
  lemma AcceptSlices(db: Db, req: Request, now: int, dbNow: int)
    requires DbInv(db) && PlaceTx(db, req, now, dbNow).Commit? && KeyOf(req) !in db.keys
    ensures req.auctionId in db.auctions
    ensures var d := PlaceTx(db, req, now, dbNow).db;
            && NoHoles(d)
            && SliceOf(d, req.auctionId)
               == BidSlice(SliceOf(db, req.auctionId), req, NewBid(db, req), now, db.nextOrderId)
            && SliceInv(req.auctionId, SliceOf(d, req.auctionId))
            && (forall k | k in db.auctions && k != req.auctionId :: SliceOf(d, k) == SliceOf(db, k))
  {
    hide SliceInv, NoHoles, KeysOk, Validate, AcceptWhere, PlaceEvents, BidRow, PlanOf, Writes, AcceptTx;
    NewKey(db, req, now, dbNow);
    AcceptWrites(db, req, now, dbNow);
    var d := PlaceTx(db, req, now, dbNow).db;
    OneAuction(db, d, req.auctionId, PlaceEvents(req.auctionId, db.auctions[req.auctionId], NewResult(db, req, now)),
               [NewBid(db, req)]);
    BidKeepsSlice(req.auctionId, SliceOf(db, req.auctionId), req, NewBid(db, req), now, db.nextOrderId);
  }

  lemma AcceptKeepsKeys(db: Db, d: Db, bid: Bid, r: BidResult)
    requires KeysOk(db) && !DuplicateBid(db.bids, BidKey(bid)) && BidKey(bid) !in db.keys
    requires d.bids == db.bids + [bid] && r.bid == bid
    requires d.keys == db.keys[BidKey(bid) := Record(Fingerprint(bid.auctionId, bid.amount), Some(r), Succeeded)]
    ensures KeysOk(d)
  {
    forall k | k in d.keys
      ensures DuplicateBid(d.bids, k)
    {
      if k == BidKey(bid) {
        assert d.bids[|db.bids|] == bid;
      } else {
        var i :| 0 <= i < |db.bids| && BidKey(db.bids[i]) == k;
        assert d.bids[i] == db.bids[i];
      }
    }
    forall i | 0 <= i < |d.bids|
      ensures Answered(d, d.bids[i])
    {
      if i < |db.bids| {
        assert Answered(db, db.bids[i]) && BidKey(db.bids[i]) != BidKey(bid);
      }
    }
  }

  /** How a bid moves the row. */
  lemma BidEvolves(id: int, s: Slice, req: Request, bid: Bid, now: int, orderId: int)
    requires SliceInv(id, s) && Validate(s.row, req.amount, now).Pass?
    ensures s.order == None
    ensures Evolves(s.row, BidSlice(s, req, bid, now, orderId).row)
  {
  }

  lemma AcceptOnly(db: Db, req: Request, now: int, dbNow: int)
    requires DbInv(db) && PlaceTx(db, req, now, dbNow).Commit? && KeyOf(req) !in db.keys
    ensures OnlyAuction(db, PlaceTx(db, req, now, dbNow).db, req.auctionId)
  {
    hide SliceInv, KeysOk, NoHoles, Validate, AcceptWhere, AcceptTx, PlanOf, BidRow, PlaceEvents;
    NewKey(db, req, now, dbNow);
    AcceptWrites(db, req, now, dbNow);
    AcceptSlices(db, req, now, dbNow);
    BidEvolves(req.auctionId, SliceOf(db, req.auctionId), req, NewBid(db, req), now, db.nextOrderId);
    EventsOfPlan(req.auctionId, db.auctions[req.auctionId], NewBid(db, req), now, db.nextOrderId);
  }

  lemma AcceptKeeps(db: Db, req: Request, now: int, dbNow: int)
    requires DbInv(db) && PlaceTx(db, req, now, dbNow).Commit? && KeyOf(req) !in db.keys
    ensures DbInv(PlaceTx(db, req, now, dbNow).db) && Grows(db, PlaceTx(db, req, now, dbNow).db)
  {
    hide SliceInv, KeysOk, NoHoles, OnlyAuction, Evolves, Validate, AcceptWhere, Grows, AcceptTx,
         PlanOf, BidRow, PlaceEvents;
    var d := PlaceTx(db, req, now, dbNow).db;
    NewKey(db, req, now, dbNow);
    AcceptWrites(db, req, now, dbNow);
    AcceptSlices(db, req, now, dbNow);
    AcceptKeepsKeys(db, d, NewBid(db, req), NewResult(db, req, now));
    AcceptOnly(db, req, now, dbNow);
    OneSlice(db, d, req.auctionId);
  }

  lemma PlaceKeeps(db: Db, req: Request, now: int, dbNow: int)
    requires DbInv(db) && PlaceTx(db, req, now, dbNow).Commit?
    ensures DbInv(PlaceTx(db, req, now, dbNow).db) && Grows(db, PlaceTx(db, req, now, dbNow).db)
  {
    if KeyOf(req) in db.keys {
      KnownKey(db, req);
      GrowsReflexive(db);
    } else {
      AcceptKeeps(db, req, now, dbNow);
    }
  }

  // ---- the worker and the seller ----

  /** A step of one auction that appends one event and leaves bids and key records alone. */
  ghost predicate OneEvent(db: Db, d: Db, id: int, e: Event) {
    && Writes(db, d, id, [e], []) && !e.body.AuctionExtended?
    && d.keys == db.keys
    && (d.orders == db.orders || (id !in db.orders && id in d.orders && d.orders == db.orders[id := d.orders[id]]))
    && Evolves(db.auctions[id], d.auctions[id])
  }

  lemma OneEventSlices(db: Db, d: Db, id: int, e: Event)
    requires NoHoles(db) && OneEvent(db, d, id, e)
    ensures NoHoles(d) && Fits(db.outbox, id, [e]) && OnlyAuction(db, d, id)
    ensures SliceOf(d, id) == Slice(d.auctions[id], BidsOf(db.bids, id), Lookup(d.orders, id), LogOf(db, id) + [e])
  {
    hide Evolves, NoHoles, BidsOf, InsertEvents;
    OneAuction(db, d, id, [e], []);
    assert BidsOf(db.bids, id) + [] == BidsOf(db.bids, id);
    assert d.bids == db.bids;
    assert LogOf(d, id) == LogOf(db, id) + [e];
  }

  lemma OneEventKeeps(db: Db, d: Db, id: int, e: Event)
    requires DbInv(db) && OneEvent(db, d, id, e)
    requires SliceInv(id, Slice(d.auctions[id], BidsOf(db.bids, id), Lookup(d.orders, id), LogOf(db, id) + [e]))
    ensures Fits(db.outbox, id, [e]) && DbInv(d) && Grows(db, d)
  {
    hide Evolves, NoHoles, BidsOf, InsertEvents, SliceInv, OnlyAuction, KeysOk, Grows;
    OneEventSlices(db, d, id, e);
    assert d.bids == db.bids;
    SameKeys(db, d);
    OneSlice(db, d, id);
  }

  /** Starting never fails, whatever candidates were locked. */
  lemma {:induction false} StartKeeps(db: Db, ids: seq<int>, dbNow: int)
    requires DbInv(db)
    ensures StartTx(db, ids, dbNow).Commit?
    ensures DbInv(StartTx(db, ids, dbNow).db) && Grows(db, StartTx(db, ids, dbNow).db)
    decreases |ids|
  {
    hide SliceInv, KeysOk, NoHoles;
    if ids == [] {
      GrowsReflexive(db);
    } else {
      StartKeeps(db, ids[..|ids| - 1], dbNow);
      var db1 := StartTx(db, ids[..|ids| - 1], dbNow).db;
      var id := ids[|ids| - 1];
      if id in db1.auctions && DueToStart(db1.auctions[id], dbNow) {
        StartOneKeeps(db1, id);
        GrowsTransitive(db, db1, StartTx(db, ids, dbNow).db);
      }
    }
  }

  lemma StartOneKeeps(db: Db, id: int)
    requires DbInv(db) && id in db.auctions && db.auctions[id].status == Pending
    ensures var a := db.auctions[id];
            var e := StartEvent(id, a);
            var d := db.(auctions := db.auctions[id := a.(status := Active, version := a.version + 1)],
                         outbox := InsertEvents(db.outbox, id, [e]));
            Fits(db.outbox, id, [e]) && DbInv(d) && Grows(db, d)
  {
    hide SliceInv, NoHoles, KeysOk, BidsOf, Fits, Grows;
    var a := db.auctions[id];
    var e := StartEvent(id, a);
    var d := db.(auctions := db.auctions[id := a.(status := Active, version := a.version + 1)],
                 outbox := InsertEvents(db.outbox, id, [e]));
    StartKeepsSlice(id, SliceOf(db, id));
    OneEventKeeps(db, d, id, e);
  }

  lemma NoOrderWhileActive(id: int, s: Slice)
    requires SliceInv(id, s) && s.row.status != Ended
    ensures s.order == None
  {
  }

  /** Ending never fails: neither the order nor the event it inserts can already be there. */
  lemma EndKeeps(db: Db, id: int, dbNow: int)
    requires DbInv(db)
    ensures EndTx(db, id, dbNow).Commit?
    ensures DbInv(EndTx(db, id, dbNow).db) && Grows(db, EndTx(db, id, dbNow).db)
  {
    hide SliceInv, KeysOk, NoHoles, BidsOf, Grows, Fits;
    if id !in db.auctions || db.auctions[id].status != Active || db.auctions[id].endTime > dbNow {
      GrowsReflexive(db);
    } else {
      var a := db.auctions[id];
      NoOrderWhileActive(id, SliceOf(db, id));
      EndKeepsSlice(id, SliceOf(db, id), db.nextOrderId);
      var e := EndEvent(id, a, if a.leaderId.Some? then Some(db.nextOrderId) else None);
      var d := db.(auctions := db.auctions[id := a.(status := Ended, version := a.version + 1)],
                   orders := if a.leaderId.Some? then db.orders[id := OrderFor(db, a)] else db.orders,
                   outbox := InsertEvents(db.outbox, id, [e]),
                   nextOrderId := if a.leaderId.Some? then db.nextOrderId + 1 else db.nextOrderId);
      OneEventKeeps(db, d, id, e);
      assert EndTx(db, id, dbNow) == Commit(d,
                     EndResult(true, if a.leaderId.Some? then Some(db.nextOrderId) else None));
    }
  }

  lemma CancelKeeps(db: Db, id: int, sellerId: int)
    requires DbInv(db)
    ensures match CancelTx(db, id, sellerId)
            case Commit(d, _) => DbInv(d) && Grows(db, d)
            case Abort(e) => e != Error.Storage
  {
    hide SliceInv, KeysOk, NoHoles;
    if id in db.auctions && !Over(db.auctions[id].status) {
      var a := db.auctions[id];
      var e := CancelEvent(id, a);
      var d := db.(auctions := db.auctions[id := a.(status := Cancelled, version := a.version + 1)],
                   outbox := InsertEvents(db.outbox, id, [e]));
      CancelKeepsSlice(id, SliceOf(db, id));
      OneEventKeeps(db, d, id, e);
    }
  }

  lemma UpdateKeeps(db: Db, id: int, sellerId: int, t: Terms, now: int, dbNow: int)
    requires DbInv(db) && UpdateTx(db, id, sellerId, t, now, dbNow).Commit?
    ensures DbInv(UpdateTx(db, id, sellerId, t, now, dbNow).db)
    ensures Grows(db, UpdateTx(db, id, sellerId, t, now, dbNow).db)
  {
    hide SliceInv, KeysOk, BidsOf, PricesOk, WithinLimits;
    var d := UpdateTx(db, id, sellerId, t, now, dbNow).db;
    if d == db {
      GrowsReflexive(db);
    } else {
      ReviseKeepsSlice(id, SliceOf(db, id), t, now);
      assert SliceOf(d, id) == SliceOf(db, id).(row := d.auctions[id]);
      forall k | k in db.auctions && k != id
        ensures SliceOf(d, k) == SliceOf(db, k)
      {
      }
      SameKeys(db, d);
      OneSlice(db, d, id);
    }
  }

  lemma NewSlice(id: int, a: Auction)
    requires ConfigOk(a) && a.status == Pending && a.currentPrice == a.config.startPrice && a.leaderId == None
    requires a.bidCount == 0 && a.version == 0 && a.endTime == a.config.originalEndTime
    ensures SliceInv(id, Slice(a, [], None, []))
  {
  }

  lemma CreateKeeps(db: Db, id: int, sellerId: int, t: Terms, now: int)
    requires DbInv(db) && CreateTx(db, id, sellerId, t, now).Commit?
    ensures DbInv(CreateTx(db, id, sellerId, t, now).db)
    ensures Grows(db, CreateTx(db, id, sellerId, t, now).db)
  {
    hide SliceInv, KeysOk, BidsOf;
    var d := CreateTx(db, id, sellerId, t, now).db;
    NewSlice(id, d.auctions[id]);
    NoBidsYet(db.bids, id);
    assert SliceOf(d, id) == Slice(d.auctions[id], [], None, []);
    SameKeys(db, d);
    forall k | k in db.auctions
      ensures SliceOf(d, k) == SliceOf(db, k)
    {
    }
  }

  lemma SameKeys(db: Db, d: Db)
    requires KeysOk(db) && d.bids == db.bids && d.keys == db.keys
    ensures KeysOk(d)
  {
    forall i | 0 <= i < |d.bids|
      ensures Answered(d, d.bids[i])
    {
      assert Answered(db, db.bids[i]);
    }
  }

  lemma {:induction false} NoBidsYet(bids: seq<Bid>, id: int)
    requires forall i | 0 <= i < |bids| :: bids[i].auctionId != id
    ensures BidsOf(bids, id) == []
    decreases |bids|
  {
    if bids != [] {
      NoBidsYet(bids[..|bids| - 1], id);
    }
  }
}
