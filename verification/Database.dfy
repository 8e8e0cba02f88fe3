/** The tables as mutable state, the statements of the repositories, and the services that run them in
    transactions. Every method is tied to the transaction functions of `Tables`. A transaction holds its
    row locks until it ends, so it runs here without interference; what other calls do between the
    unlocked reads of a bid and its transaction is in `BidCalls`. */
module Storage {
  import opened AuctionTypes
  import opened BidRules
  import opened Tables

  class Database {
    var auctions: map<int, Auction>
    var bids: seq<Bid>
    var orders: map<int, Order>
    var keys: map<IdemKey, Record>
    var outbox: map<(int, int), Event>
    var nextBidId: int
    var nextOrderId: int

    ghost function State(): Db
      reads this
    {
      Db(auctions, bids, orders, keys, outbox, nextBidId, nextOrderId)
    }

    constructor ()
      ensures State() == EMPTY
    {
      auctions, bids, orders, keys, outbox := map[], [], map[], map[], map[];
      nextBidId, nextOrderId := 1, 1;
    }

    method Begin() returns (saved: Db)
      ensures saved == State()
    {
      saved := Db(auctions, bids, orders, keys, outbox, nextBidId, nextOrderId);
    }

    method Rollback(saved: Db)
      modifies this
      ensures State() == saved
    {
      auctions, bids, orders, keys, outbox := saved.auctions, saved.bids, saved.orders, saved.keys, saved.outbox;
      nextBidId, nextOrderId := saved.nextBidId, saved.nextOrderId;
    }

    // ---- statements of the bid repository ----

    method ClaimIdempotency(k: IdemKey, fingerprint: Fingerprint) returns (record: Record)
      modifies this`keys
      ensures k in old(keys) ==> keys == old(keys) && record == keys[k]
      ensures k !in old(keys) ==> record == Record(fingerprint, None, Processing) && keys == old(keys)[k := record]
    {
      if k !in keys {
        keys := keys[k := Record(fingerprint, None, Processing)];
      }
      record := keys[k];
    }

    method ConditionalAccept(id: int, userId: int, amount: int, p: Plan, dbNow: int) returns (affected: nat)
      modifies this`auctions
      ensures affected == if id in old(auctions) && AcceptWhere(old(auctions)[id], amount, dbNow) then 1 else 0
      ensures affected == 0 ==> auctions == old(auctions)
      ensures affected == 1 ==> auctions == old(auctions)[id := BidRow(old(auctions)[id], userId, amount, p)]
    {
      affected := 0;
      if id in auctions && AcceptWhere(auctions[id], amount, dbNow) {
        var a := auctions[id];
        a := a.(currentPrice := amount, leaderId := Some(userId), endTime := p.newEndTime);
        if p.ceilingHit {
          a := a.(status := Ended);
        }
        a := a.(version := a.version + p.eventCount, bidCount := a.bidCount + 1);
        auctions := auctions[id := a];
        affected := 1;
      }
    }

    /** None when the unique key on auction, user and idempotency key is violated. */
    method InsertAcceptedBid(id: int, userId: int, amount: int, key: string) returns (bid: Option<Bid>)
      modifies this`bids, this`nextBidId
      ensures bid == if DuplicateBid(old(bids), IdemKey(userId, id, key)) then None
                     else Some(Bid(old(nextBidId), id, userId, amount, key))
      ensures bid.None? ==> bids == old(bids) && nextBidId == old(nextBidId)
      ensures bid.Some? ==> bids == old(bids) + [bid.value] && nextBidId == old(nextBidId) + 1
    {
      if DuplicateBid(bids, IdemKey(userId, id, key)) {
        return None;
      }
      bid := Some(Bid(nextBidId, id, userId, amount, key));
      bids := bids + [bid.value];
      nextBidId := nextBidId + 1;
    }

    /** None when the auction already has an order. */
    method InsertOrder(id: int, winnerId: int, sellerId: int, finalPrice: int) returns (orderId: Option<int>)
      modifies this`orders, this`nextOrderId
      ensures id in old(orders) ==> orderId == None && orders == old(orders) && nextOrderId == old(nextOrderId)
      ensures id !in old(orders) ==>
        && orderId == Some(old(nextOrderId)) && nextOrderId == old(nextOrderId) + 1
        && orders == old(orders)[id := Order(old(nextOrderId), winnerId, sellerId, finalPrice)]
    {
      if id in orders {
        return None;
      }
      orderId := Some(nextOrderId);
      orders := orders[id := Order(nextOrderId, winnerId, sellerId, finalPrice)];
      nextOrderId := nextOrderId + 1;
    }

    /** False when the auction already has an event of that number. */
    method InsertOutbox(id: int, e: Event) returns (ok: bool)
      modifies this`outbox
      ensures ok == ((id, e.eventSeq) !in old(outbox))
      ensures outbox == if ok then old(outbox)[(id, e.eventSeq) := e] else old(outbox)
    {
      ok := (id, e.eventSeq) !in outbox;
      if ok {
        outbox := outbox[(id, e.eventSeq) := e];
      }
    }

    method FinalizeIdempotency(k: IdemKey, r: BidResult)
      modifies this`keys
      ensures keys == if k in old(keys) then old(keys)[k := old(keys)[k].(response := Some(r), status := Succeeded)]
                      else old(keys)
    {
      if k in keys {
        keys := keys[k := keys[k].(response := Some(r), status := Succeeded)];
      }
    }

    /** Inserts the auction's order, or finds the existing one and checks that it is the same deal. */
    method EnsureOrder(id: int, winnerId: int, sellerId: int, finalPrice: int) returns (orderId: Option<int>)
      modifies this`orders, this`nextOrderId
      ensures id !in old(orders) ==>
        && orders == old(orders)[id := Order(old(nextOrderId), winnerId, sellerId, finalPrice)]
        && nextOrderId == old(nextOrderId) + 1
      ensures id in old(orders) ==> orders == old(orders) && nextOrderId == old(nextOrderId)
      ensures orderId == if SameDeal(orders[id], Order(0, winnerId, sellerId, finalPrice))
                         then Some(orders[id].id) else None
    {
      if id !in orders {
        orders := orders[id := Order(nextOrderId, winnerId, sellerId, finalPrice)];
        nextOrderId := nextOrderId + 1;
      }
      var stored := orders[id];
      if stored.winnerId != winnerId || stored.sellerId != sellerId || stored.finalPrice != finalPrice {
        return None;
      }
      orderId := Some(stored.id);
    }
  }

  /** Appends the events of an accepted bid: the bid, then an extension or an end. */
  method BuildEvents(auctionId: int, a: Auction, r: BidResult) returns (events: seq<Event>)
    ensures events == PlaceEvents(auctionId, a, r)
  {
    events := [BidEvent(auctionId, a, r)];
    if r.extended {
      events := events + [ExtendEvent(auctionId, a, r)];
    }
    if r.ceilingHit {
      events := events + [CeilingEvent(auctionId, a, r)];
    }
  }

  class BidService {
    const db: Database

    constructor (db: Database)
      ensures this.db == db
    {
      this.db := db;
    }

    /** The transaction of a bid, up to but not including its commit. On an error nothing has changed. */
    method PlaceInTx(req: Request, now: int, dbNow: int) returns (reply: Reply)
      modifies db
      ensures match PlaceTx(old(db.State()), req, now, dbNow)
              case Commit(d, r) => db.State() == d && reply == Accepted(r)
              case Abort(e) => db.State() == old(db.State()) && reply == Refused(e)
    {
      var saved := db.Begin();
      var record := db.ClaimIdempotency(KeyOf(req), FingerprintOf(req));
      if record.fingerprint != FingerprintOf(req) {
        db.Rollback(saved);
        return Refused(IdempotencyConflict);
      }
      if record.status == Succeeded && record.response.Some? {
        return Accepted(record.response.value);
      }
      if req.auctionId !in db.auctions {
        db.Rollback(saved);
        return Refused(AuctionNotFound);
      }
      var current := db.auctions[req.auctionId];
      var verdict := Validate(current, req.amount, now);
      if verdict.Fail? {
        db.Rollback(saved);
        return Refused(verdict.error);
      }

      reply := AcceptInTx(req, current, now, dbNow, saved);
      if reply.Refused? {
        db.Rollback(saved);
      }
    }

    /** The writes of the transaction, after the key has been claimed on the tables `saved`. */
    method AcceptInTx(req: Request, current: Auction, now: int, dbNow: int, ghost saved: Db) returns (reply: Reply)
      requires req.auctionId in db.auctions && db.auctions[req.auctionId] == current
      requires KeyOf(req) in db.keys && db.keys[KeyOf(req)].fingerprint == FingerprintOf(req)
      requires saved == db.State().(keys := saved.keys)
      requires db.keys == saved.keys[KeyOf(req) := db.keys[KeyOf(req)]]
      modifies db
      ensures reply.Accepted? ==> AcceptTx(saved, req, current, now, dbNow) == Commit(db.State(), reply.result)
      ensures reply.Refused? ==> AcceptTx(saved, req, current, now, dbNow) == Abort(reply.error)
    {
      reply := WriteInTx(req, current, now, dbNow, saved);
      if reply.Accepted? {
        var events := BuildEvents(req.auctionId, current, reply.result);
        var ok := StoreEvents(req.auctionId, events);
        if !ok {
          return Refused(Error.Storage);
        }
      }
    }

    /** Whether the bid ends the auction or extends it, and how many events that makes. */
    method ChoosePlan(current: Auction, amount: int, now: int) returns (p: Plan)
      ensures p == PlanOf(current, amount, now)
      ensures !(p.ceilingHit && p.extended)
    {
      var ceilingHit := current.config.ceilingPrice == Some(amount);
      var extended := !ceilingHit && ShouldExtend(current, now);
      var newEndTime, eventCount := current.endTime, 1;
      if ceilingHit {
        newEndTime, eventCount := now, 2;
      } else if extended {
        newEndTime, eventCount := current.endTime + current.config.extendSeconds * SECOND, 2;
      }
      p := Plan(ceilingHit, extended, newEndTime, eventCount);
    }

    method WriteInTx(req: Request, current: Auction, now: int, dbNow: int, ghost saved: Db) returns (reply: Reply)
      requires req.auctionId in db.auctions && db.auctions[req.auctionId] == current
      requires KeyOf(req) in db.keys && db.keys[KeyOf(req)].fingerprint == FingerprintOf(req)
      requires saved == db.State().(keys := saved.keys)
      requires db.keys == saved.keys[KeyOf(req) := db.keys[KeyOf(req)]]
      modifies db
      ensures reply.Accepted? ==> WriteTx(saved, req, current, now, dbNow) == Commit(db.State(), reply.result)
      ensures reply.Accepted? ==> !(reply.result.extended && reply.result.ceilingHit)
      ensures reply.Refused? ==> WriteTx(saved, req, current, now, dbNow) == Abort(reply.error)
    {
      hide AcceptWhere, DuplicateBid, PlanOf;
      var plan := ChoosePlan(current, req.amount, now);
      var affected := db.ConditionalAccept(req.auctionId, req.userId, req.amount, plan, dbNow);
      if affected == 0 {
        return Refused(BidConflict);
      }
      var bid := db.InsertAcceptedBid(req.auctionId, req.userId, req.amount, req.key);
      if bid.None? {
        return Refused(Error.Storage);
      }
      var orderId := None;
      if plan.ceilingHit {
        orderId := db.InsertOrder(req.auctionId, req.userId, current.config.sellerId, req.amount);
        if orderId.None? {
          return Refused(Error.Storage);
        }
      }
      var result := BidResult(bid.value, current.version + plan.eventCount, req.amount, req.userId, plan.extended,
                              plan.newEndTime, now, plan.ceilingHit, orderId);
      db.FinalizeIdempotency(KeyOf(req), result);
      return Accepted(result);
    }

    method StoreEvents(auctionId: int, events: seq<Event>) returns (ok: bool)
      requires forall i, j | 0 <= i < j < |events| :: events[i].eventSeq != events[j].eventSeq
      modifies db`outbox
      ensures ok == Fits(old(db.outbox), auctionId, events)
      ensures ok ==> db.outbox == InsertEvents(old(db.outbox), auctionId, events)
    {
      var i := 0;
      while i < |events|
        invariant 0 <= i <= |events|
        invariant InsertEvents(db.outbox, auctionId, events[i..]) == InsertEvents(old(db.outbox), auctionId, events)
        invariant forall j | 0 <= j < i :: (auctionId, events[j].eventSeq) !in old(db.outbox)
        invariant forall j | i <= j < |events| ::
          (auctionId, events[j].eventSeq) in db.outbox <==> (auctionId, events[j].eventSeq) in old(db.outbox)
      {
        assert events[i..][0] == events[i] && events[i..][1..] == events[i + 1..];
        var stored := db.InsertOutbox(auctionId, events[i]);
        if !stored {
          return false;
        }
        i := i + 1;
      }
      return true;
    }

    /** A whole call; `record` and `snapshot` are what its two unlocked reads returned. */
    method Place(req: Request, record: Option<Record>, snapshot: Option<Auction>, preNow: int,
                 lock: LockAnswer, now: int, dbNow: int, commit: CommitOutcome)
      returns (reply: Reply)
      modifies db
      ensures match BeforeTx(req, record, snapshot, preNow, lock)
              case Some(early) => db.State() == old(db.State()) && reply == early
              case None => (db.State(), reply) == AfterTx(old(db.State()), req, now, dbNow, commit)
    {
      hide PlaceTx, Validate, BadRequest;
      if BadRequest(req) {
        return Refused(InvalidParam);
      }
      var settled := FromRecord(record, req);
      if settled.Some? {
        return settled.value;
      }
      if snapshot.None? {
        return Refused(AuctionNotFound);
      }
      var verdict := Validate(snapshot.value, req.amount, preNow);
      if verdict.Fail? {
        return Refused(verdict.error);
      }
      if lock == Unreachable {
        return Refused(SystemProtect);
      }
      if lock == Busy {
        return Refused(BidConflict);
      }
      var saved := db.Begin();
      reply := PlaceInTx(req, now, dbNow);
      if reply.Accepted? && commit.Lost? {
        if !commit.applied {
          db.Rollback(saved);
        }
        reply := Refused(Error.Storage);
      }
    }
  }
}
