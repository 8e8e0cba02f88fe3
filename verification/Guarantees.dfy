/** What the auction server promises, over every run. */
module Guarantees {
  import opened AuctionTypes
  import opened BidRules
  import opened Tables
  import opened AuctionInvariant
  import opened TransactionSafety
  import opened BidCalls
  import opened Effects
  import Lifecycle

  lemma ReachableSlice(clock: int, acts: seq<Action>, id: int)
    requires id in Exec(Boot(clock), acts).db.auctions
    ensures NoHoles(Exec(Boot(clock), acts).db)
    ensures SliceInv(id, SliceOf(Exec(Boot(clock), acts).db, id))
  {
    hide SliceInv, KeysOk, NoHoles, CallsOk;
    Reachable(clock, acts);
  }

  // ---- the log ----

  /** Each auction's outbox rows are numbered 1..version without a hole, and folding them rebuilds its
      row and order. Before the start event the price is still the start price. */
  lemma LogReplaysToState(clock: int, acts: seq<Action>, id: int)
    requires id in Exec(Boot(clock), acts).db.auctions
    ensures var db := Exec(Boot(clock), acts).db;
            var a := db.auctions[id];
            var v := Fold(LogOf(db, id));
            && (forall n :: (id, n) in db.outbox <==> 1 <= n <= a.version)
            && (forall i | 0 <= i < a.version :: LogOf(db, id)[i] == db.outbox[(id, i + 1)]
                                                 && LogOf(db, id)[i].eventSeq == i + 1)
            && v.status == a.status && v.leader == a.leaderId && v.bidCount == a.bidCount
            && (v.price == Some(a.currentPrice) || (v.price == None && a.currentPrice == a.config.startPrice))
            && (a.status == Active ==> v.price.Some? && v.endTime == a.endTime)
            && (a.status == Ended ==>
                 && v.winner == a.leaderId
                 && v.finalPrice == (if a.leaderId.Some? then Some(a.currentPrice) else None)
                 && v.orderId == (if id in db.orders then Some(db.orders[id].id) else None))
  {
    hide BidsOk, LogOk, DeadlineOk, ConfigOk;
    ReachableSlice(clock, acts, id);
    LogNumbers(id, SliceOf(Exec(Boot(clock), acts).db, id));
  }

  lemma LogNumbers(id: int, s: Slice)
    requires SliceInv(id, s)
    ensures forall i | 0 <= i < |s.log| :: s.log[i].eventSeq == i + 1
    ensures !Begun(s.log) ==> s.row.status != Active && s.row.currentPrice == s.row.config.startPrice
  {
  }

  // ---- identifiers ----

  lemma NextNumbers(s: Sys, act: Action)
    requires IdsOk(s.db)
    ensures IdsOk(Next(s, act).db)
  {
    hide IdsOk, PlaceTx, EndTx, StartTx, OnSnapshot, FromRecord, BadRequest, InsertEvents, WithinLimits;
    match act
    case RunTx(c, now, commit) =>
      if At(s, c, Holding) && PlaceTx(s.db, s.calls[c].req, now, s.clock).Commit? {
        PlaceNumbers(s.db, s.calls[c].req, now, s.clock);
      }
    case EndOne(id, commit) =>
      if EndTx(s.db, id, s.clock).Commit? {
        EndNumbers(s.db, id, s.clock);
      }
    case StartDue(ids) =>
      if StartTx(s.db, ids, s.clock).Commit? {
        StartNumbers(s.db, ids, s.clock);
        SameNumbers(s.db, StartTx(s.db, ids, s.clock).db);
      }
    case _ =>
      if Next(s, act).db != s.db {
        SameNumbers(s.db, Next(s, act).db);
      }
  }

  lemma SameNumbers(db: Db, d: Db)
    requires IdsOk(db) && d.bids == db.bids && d.orders == db.orders
    requires d.nextBidId == db.nextBidId && d.nextOrderId == db.nextOrderId
    ensures IdsOk(d)
  {
  }

  lemma {:induction false} RunNumbers(s: Sys, acts: seq<Action>)
    requires IdsOk(s.db)
    ensures IdsOk(Exec(s, acts).db)
    decreases |acts|
  {
    hide IdsOk, Next;
    if acts != [] {
      NextNumbers(s, acts[0]);
      RunNumbers(Next(s, acts[0]), acts[1..]);
    }
  }

  /** No two bids and no two orders ever share an id, and bids are numbered in the order of their acceptance. */
  lemma IdsAreUnique(clock: int, acts: seq<Action>)
    ensures var db := Exec(Boot(clock), acts).db;
            && (forall i, j | 0 <= i < j < |db.bids| :: db.bids[i].id < db.bids[j].id)
            && (forall j, k | j in db.orders && k in db.orders && db.orders[j].id == db.orders[k].id :: j == k)
  {
    RunNumbers(Boot(clock), acts);
  }

  // ---- prices ----

  lemma {:induction false} Ladder(first: int, step: int, bids: seq<Bid>, k: nat)
    requires k < |bids| && bids[0].amount >= first
    requires forall i | 0 <= i < |bids| - 1 :: bids[i].amount + step <= bids[i + 1].amount
    ensures bids[k].amount >= first + k * step
  {
    if k > 0 {
      Ladder(first, step, bids, k - 1);
      assert bids[k - 1].amount + step <= bids[k - 1 + 1].amount;
      assert first + k * step == first + (k - 1) * step + step;
    }
  }

  lemma {:induction false} NoneAboveLater(step: int, bids: seq<Bid>, i: nat, j: nat)
    requires i <= j < |bids| && step > 0
    requires forall k | 0 <= k < |bids| - 1 :: bids[k].amount + step <= bids[k + 1].amount
    ensures bids[i].amount <= bids[j].amount
  {
    if i < j {
      NoneAboveLater(step, bids, i, j - 1);
      assert bids[j - 1].amount + step <= bids[j - 1 + 1].amount;
    }
  }

  lemma SlicePrices(a: Auction, bids: seq<Bid>)
    requires ConfigOk(a) && BidsOk(a, bids)
    ensures forall i | 0 <= i < |bids| :: bids[i].amount >= FirstMin(a) + i * a.config.priceStep
                                          && bids[i].amount <= a.currentPrice
  {
    hide FirstMin;
    forall i | 0 <= i < |bids|
      ensures bids[i].amount >= FirstMin(a) + i * a.config.priceStep && bids[i].amount <= a.currentPrice
    {
      Ladder(FirstMin(a), a.config.priceStep, bids, i);
      NoneAboveLater(a.config.priceStep, bids, i, |bids| - 1);
    }
  }

  /** Whatever the stale reads and the lock said: accepted amounts rise by at least a step each, the row
      shows the last of them, the count counts them, and none exceeds the ceiling. */
  lemma PriceSafety(clock: int, acts: seq<Action>, id: int)
    requires id in Exec(Boot(clock), acts).db.auctions
    ensures var db := Exec(Boot(clock), acts).db;
            var a, bids := db.auctions[id], BidsOf(db.bids, id);
            && a.bidCount == |bids|
            && (forall i | 0 <= i < |bids| - 1 :: bids[i].amount + a.config.priceStep <= bids[i + 1].amount)
            && (forall i | 0 <= i < |bids| :: bids[i].amount >= FirstMin(a) + i * a.config.priceStep
                                              && bids[i].amount <= a.currentPrice)
            && (if bids == [] then a.currentPrice == a.config.startPrice && a.leaderId == None
                else a.currentPrice == Last(bids).amount && a.leaderId == Some(Last(bids).userId))
            && (a.config.ceilingPrice.Some? ==> a.currentPrice <= a.config.ceilingPrice.value)
  {
    hide LogOk, Rebuilds, DeadlineOk, OrderOk, PhaseOk, FirstMin;
    ReachableSlice(clock, acts, id);
    var db := Exec(Boot(clock), acts).db;
    SlicePrices(db.auctions[id], BidsOf(db.bids, id));
  }

  /** The most bids that a ceiling leaves room for. */
  function MostBids(a: Auction): int
    requires ConfigOk(a) && a.config.ceilingPrice.Some?
  {
    if a.config.ceilingPrice.value < FirstMin(a) then 0
    else (a.config.ceilingPrice.value - FirstMin(a)) / a.config.priceStep + 1
  }

  lemma CountBound(n: int, step: int, room: int)
    requires step > 0 && n * step <= room
    ensures n <= room / step
  {
    if n >= room / step + 1 {
      Scale(step, room / step + 1, n);
    }
  }

  lemma Scale(k: int, m: int, n: int)
    requires k >= 0 && m <= n
    ensures k * m <= k * n
  {
  }

  lemma SliceBounds(a: Auction, bids: seq<Bid>)
    requires ConfigOk(a) && BidsOk(a, bids)
    ensures a.bidCount >= 1 ==> a.currentPrice >= FirstMin(a) + (a.bidCount - 1) * a.config.priceStep
    ensures a.config.ceilingPrice.Some? ==> |bids| <= MostBids(a)
  {
    if bids != [] {
      Ladder(FirstMin(a), a.config.priceStep, bids, |bids| - 1);
      if a.config.ceilingPrice.Some? {
        CountBound(|bids| - 1, a.config.priceStep, a.config.ceilingPrice.value - FirstMin(a));
      }
    }
  }

  /** With a ceiling, both the number of bids and the latest deadline are bounded in advance. */
  lemma BoundedAuction(clock: int, acts: seq<Action>, id: int)
    requires id in Exec(Boot(clock), acts).db.auctions
    ensures var db := Exec(Boot(clock), acts).db;
            var a := db.auctions[id];
            && ConfigOk(a)
            && (a.bidCount >= 1 ==> a.currentPrice >= FirstMin(a) + (a.bidCount - 1) * a.config.priceStep)
            && (a.status == Active ==>
                 a.endTime == a.config.originalEndTime
                              + a.config.extendSeconds * SECOND * CountExtended(LogOf(db, id)))
            && (a.config.ceilingPrice.Some? ==>
                 && a.bidCount <= MostBids(a)
                 && (a.status == Active ==>
                      a.endTime <= a.config.originalEndTime + a.config.extendSeconds * SECOND * MostBids(a)))
  {
    hide LogOk, Rebuilds, OrderOk, PhaseOk, MostBids, FirstMin;
    ReachableSlice(clock, acts, id);
    var db := Exec(Boot(clock), acts).db;
    var a := db.auctions[id];
    SliceBounds(a, BidsOf(db.bids, id));
    if a.config.ceilingPrice.Some? {
      Scale(a.config.extendSeconds * SECOND, CountExtended(LogOf(db, id)), MostBids(a));
    }
  }

  /** The ceiling itself stays within reach exactly while it is at least the next minimum. */
  lemma CeilingReachable(a: Auction, now: int)
    requires a.status == Active && now < a.endTime && a.config.ceilingPrice.Some?
    ensures (exists amount :: Validate(a, amount, now).Pass?) <==> MinAcceptable(a) <= a.config.ceilingPrice.value
    ensures Validate(a, a.config.ceilingPrice.value, now).Pass? <==> MinAcceptable(a) <= a.config.ceilingPrice.value
  {
    if MinAcceptable(a) <= a.config.ceilingPrice.value {
      assert Validate(a, a.config.ceilingPrice.value, now).Pass?;
    }
  }

  /** Creation admits auctions that can never take a bid: exactly those with a start price of 0 and a ceiling below the
      step. */
  lemma Unsellable(db: Db, id: int, sellerId: int, t: Terms, now: int)
    requires CreateTx(db, id, sellerId, t, now).Commit?
    ensures var a := CreateTx(db, id, sellerId, t, now).db.auctions[id].(status := Active);
            (forall amount, at :: !Validate(a, amount, at).Pass?)
            <==> t.startPrice == Some(0) && t.ceilingPrice.Some? && t.ceilingPrice.value < t.priceStep.value
  {
    var a := CreateTx(db, id, sellerId, t, now).db.auctions[id].(status := Active);
    assert Validate(a, MinAcceptable(a), a.endTime - 1).Pass?
      <==> a.config.ceilingPrice.None? || MinAcceptable(a) <= a.config.ceilingPrice.value;
  }

  lemma UnsellableIsAdmitted(now: int)
    ensures var t := Terms(Some(0), Some(100), Some(50), Some(now + 1), Some(60), None, None);
            CreateTx(EMPTY, 1, 1, t, now).Commit?
  {
  }

  // ---- idempotency ----

  /** Two successful calls with one key had one amount and got one answer, which is that of the only bid
      with that key; a lost commit or a race between them changes nothing. */
  lemma ExactlyOnce(clock: int, acts: seq<Action>, c1: nat, c2: nat)
    requires var s := Exec(Boot(clock), acts);
             && c1 in s.calls && s.calls[c1].phase.Done? && s.calls[c1].phase.reply.Accepted?
             && c2 in s.calls && s.calls[c2].phase.Done? && s.calls[c2].phase.reply.Accepted?
             && KeyOf(s.calls[c1].req) == KeyOf(s.calls[c2].req)
    ensures var s := Exec(Boot(clock), acts);
            var r := s.calls[c1].phase.reply.result;
            && s.calls[c1].req.amount == s.calls[c2].req.amount == r.bid.amount
            && s.calls[c2].phase.reply.result == r
            && exists i | 0 <= i < |s.db.bids| ::
                 && s.db.bids[i] == r.bid
                 && (forall j | 0 <= j < |s.db.bids| && BidKey(s.db.bids[j]) == KeyOf(s.calls[c1].req) :: j == i)
  {
    hide SliceInv, NoHoles;
    Reachable(clock, acts);
    var s := Exec(Boot(clock), acts);
    assert OnRecord(s.db, s.calls[c1].req, s.calls[c1].phase.reply.result);
    assert OnRecord(s.db, s.calls[c2].req, s.calls[c2].phase.reply.result);
    var i :| 0 <= i < |s.db.bids| && s.db.bids[i] == s.calls[c1].phase.reply.result.bid;
    forall j | 0 <= j < |s.db.bids| && BidKey(s.db.bids[j]) == KeyOf(s.calls[c1].req)
      ensures j == i
    {
    }
  }

  lemma RecordHasBid(db: Db, k: IdemKey)
    requires KeysOk(db) && k in db.keys
    ensures db.keys[k].status == Succeeded && db.keys[k].response.Some?
    ensures exists i | 0 <= i < |db.bids| ::
              && BidKey(db.bids[i]) == k
              && db.keys[k].response.value.bid == db.bids[i]
              && db.keys[k].fingerprint == Fingerprint(k.auctionId, db.bids[i].amount)
              && (forall j | 0 <= j < |db.bids| && BidKey(db.bids[j]) == k :: j == i)
  {
    var i :| 0 <= i < |db.bids| && BidKey(db.bids[i]) == k;
    assert Answered(db, db.bids[i]);
    forall j | 0 <= j < |db.bids| && BidKey(db.bids[j]) == k
      ensures j == i
    {
    }
  }

  /** Every committed key record is finished and belongs to exactly one bid. */
  lemma RecordsMatchBids(clock: int, acts: seq<Action>, k: IdemKey)
    requires k in Exec(Boot(clock), acts).db.keys
    ensures var db := Exec(Boot(clock), acts).db;
            && db.keys[k].status == Succeeded && db.keys[k].response.Some?
            && exists i | 0 <= i < |db.bids| ::
                 && BidKey(db.bids[i]) == k
                 && db.keys[k].response.value.bid == db.bids[i]
                 && db.keys[k].fingerprint == Fingerprint(k.auctionId, db.bids[i].amount)
                 && (forall j | 0 <= j < |db.bids| && BidKey(db.bids[j]) == k :: j == i)
  {
    hide SliceInv, NoHoles, CallsOk, KeysOk;
    Reachable(clock, acts);
    RecordHasBid(Exec(Boot(clock), acts).db, k);
  }

  /** The steps of call `c` itself. */
  predicate Own(act: Action, c: nat) {
    match act
    case ReadKey(d) => d == c
    case ReadAuction(d, _) => d == c
    case TakeLock(d, _) => d == c
    case RunTx(d, _, _) => d == c
    case _ => false
  }

  /** The own step that a phase waits for. */
  predicate Enabled(p: Phase, act: Action) {
    match p
    case Arrived => act.ReadKey?
    case Unsettled => act.ReadAuction?
    case Admitted => act.TakeLock?
    case Holding => act.RunTx?
    case Done(_) => false
  }

  /** What a key record says to a request with its key. */
  function RecordReply(record: Record, req: Request): Reply
    requires record.response.Some?
  {
    if record.fingerprint.amount == req.amount then Accepted(record.response.value) else Refused(IdempotencyConflict)
  }

  /** Refused by the unlocked read of the auction or by the lock, or with a lost commit. */
  predicate TurnedAway(reply: Reply) {
    && reply.Refused?
    && (reply.error.BidTooLow?
        || reply.error in {AuctionNotFound, NotPending, AlreadyEnded, AlreadyCancelled, OverCeiling, BidConflict,
                           SystemProtect, Error.Storage})
  }

  predicate RepeatEnd(record: Record, req: Request, reply: Reply)
    requires record.response.Some?
  {
    reply == RecordReply(record, req) || TurnedAway(reply)
  }

  /** Call `c`, whose key has the record, moved from one state to the next by its own step. */
  predicate Repeats(s: Sys, act: Action, s': Sys, c: nat, record: Record)
    requires c in s.calls && record.response.Some?
  {
    var req := s.calls[c].req;
    && s'.db == s.db
    && c in s'.calls && s'.calls[c].req == req
    && (s'.calls[c].phase == Done(RecordReply(record, req))
        <==> act.ReadKey? || (act.RunTx? && (act.commit == Committed || RecordReply(record, req).Refused?)))
    && (s'.calls[c].phase.Done? ==> RepeatEnd(record, req, s'.calls[c].phase.reply))
  }

  /** A call whose key has a record writes nothing in any of its steps. A step of it ends in the record's reply exactly
      if it is the unlocked read of the record, or the transaction unless its commit is lost (a conflict does not get as
      far as the commit); every other end is a refusal. */
  lemma RepeatStep(s: Sys, act: Action, c: nat, record: Record)
    requires Inv(s) && c in s.calls && Lookup(s.db.keys, KeyOf(s.calls[c].req)) == Some(record)
    requires Own(act, c) && Enabled(s.calls[c].phase, act)
    ensures record.response.Some? && Repeats(s, act, Next(s, act), c, record)
  {
    hide DbInv, SliceInv, NoHoles, CallsOk, KeysOk, AcceptTx, Validate;
    RecordSettles(s.db, s.calls[c].req, record);
    if act.ReadAuction? {
      SnapshotTurnsAway(Lookup(s.db.auctions, s.calls[c].req.auctionId), s.calls[c].req, act.now);
    }
  }

  lemma RecordSettles(db: Db, req: Request, record: Record)
    requires DbInv(db) && Lookup(db.keys, KeyOf(req)) == Some(record)
    ensures record.response.Some? && FromRecord(Some(record), req) == Some(RecordReply(record, req))
  {
    hide SliceInv, NoHoles, KeysOk;
    KnownKey(db, req);
    RecordHasBid(db, KeyOf(req));
  }

  lemma SnapshotTurnsAway(snapshot: Option<Auction>, req: Request, now: int)
    ensures OnSnapshot(snapshot, req, now).Some? ==> TurnedAway(OnSnapshot(snapshot, req, now).value)
    ensures OnSnapshot(snapshot, req, now) != Some(Refused(IdempotencyConflict))
  {
  }

  /** A call's phase is its own doing. */
  lemma OthersLeave(s: Sys, act: Action, c: nat)
    requires c in s.calls && !(Own(act, c) && Enabled(s.calls[c].phase, act))
    ensures c in Next(s, act).calls && Next(s, act).calls[c] == s.calls[c]
  {
    hide StartTx, EndCall, CancelTx, CreateTx, UpdateTx, AfterTx, OnSnapshot, FromRecord;
  }

  lemma {:induction false} RepeatRun(s: Sys, acts: seq<Action>, c: nat, record: Record)
    requires Inv(s) && c in s.calls && Lookup(s.db.keys, KeyOf(s.calls[c].req)) == Some(record) && record.response.Some?
    requires s.calls[c].phase.Done? ==> RepeatEnd(record, s.calls[c].req, s.calls[c].phase.reply)
    ensures var s' := Exec(s, acts);
            && c in s'.calls && s'.calls[c].req == s.calls[c].req
            && (s'.calls[c].phase.Done? ==> RepeatEnd(record, s.calls[c].req, s'.calls[c].phase.reply))
    decreases |acts|
  {
    hide DbInv, CallsOk, Next, RepeatEnd, RecordReply, Evolves, LogOf;
    if acts != [] {
      NextKeeps(s, acts[0]);
      NextDb(s, acts[0]);
      if Own(acts[0], c) && Enabled(s.calls[c].phase, acts[0]) {
        RepeatStep(s, acts[0], c, record);
      } else {
        OthersLeave(s, acts[0], c);
      }
      RepeatRun(Next(s, acts[0]), acts[1..], c, record);
    }
  }

  /** If call `c` has ended, then in this reply. */
  predicate AnsweredBy(s: Sys, c: nat, reply: Reply) {
    c in s.calls && (s.calls[c].phase.Done? ==> s.calls[c].phase == Done(reply))
  }

  /** The call, wherever it is, can only end in the record's reply. */
  predicate Settling(c: Call, reply: Reply) {
    c.phase == Arrived || (c.phase == Holding && reply.Refused?) || c.phase == Done(reply)
  }

  lemma {:induction false} SettlingRun(s: Sys, acts: seq<Action>, c: nat, record: Record)
    requires Inv(s) && c in s.calls && Lookup(s.db.keys, KeyOf(s.calls[c].req)) == Some(record) && record.response.Some?
    requires Settling(s.calls[c], RecordReply(record, s.calls[c].req))
    ensures var s' := Exec(s, acts);
            c in s'.calls && Settling(s'.calls[c], RecordReply(record, s.calls[c].req))
    decreases |acts|
  {
    hide DbInv, CallsOk, Next, RepeatEnd, RecordReply, Evolves, LogOf;
    if acts != [] {
      NextKeeps(s, acts[0]);
      NextDb(s, acts[0]);
      if Own(acts[0], c) && Enabled(s.calls[c].phase, acts[0]) {
        RepeatStep(s, acts[0], c, record);
      } else {
        OthersLeave(s, acts[0], c);
      }
      SettlingRun(Next(s, acts[0]), acts[1..], c, record);
    }
  }

  /** From the moment a key has a record, however late the record appeared to a call: the call can only end with the
      stored answer, with the conflict if its amount is another one, or turned away by the snapshot, the lock or a lost
      commit; the record stays as it is, and so does its bid, the only one with the key. */
  lemma RepeatIsSettled(clock: int, acts: seq<Action>, later: seq<Action>, c: nat)
    requires var s := Exec(Boot(clock), acts);
             c in s.calls && !s.calls[c].phase.Done? && KeyOf(s.calls[c].req) in s.db.keys
    ensures var s := Exec(Boot(clock), acts);
            var s' := Exec(s, later);
            var req := s.calls[c].req;
            var record := s.db.keys[KeyOf(req)];
            && record.response.Some?
            && KeyOf(req) in s'.db.keys && s'.db.keys[KeyOf(req)] == record
            && (exists i | 0 <= i < |s'.db.bids| ::
                  && s'.db.bids[i] == record.response.value.bid
                  && (forall j | 0 <= j < |s'.db.bids| && BidKey(s'.db.bids[j]) == KeyOf(req) :: j == i))
            && c in s'.calls && s'.calls[c].req == req
            && (s'.calls[c].phase.Done? ==> RepeatEnd(record, req, s'.calls[c].phase.reply))
            && (Settling(s.calls[c], RecordReply(record, req)) ==> AnsweredBy(s', c, RecordReply(record, req)))
  {
    hide SliceInv, NoHoles, CallsOk, KeysOk, Next, RepeatEnd, Evolves, LogOf;
    Reachable(clock, acts);
    var s := Exec(Boot(clock), acts);
    RecordHasBid(s.db, KeyOf(s.calls[c].req));
    if Settling(s.calls[c], RecordReply(s.db.keys[KeyOf(s.calls[c].req)], s.calls[c].req)) {
      SettlingRun(s, later, c, s.db.keys[KeyOf(s.calls[c].req)]);
    }
    RepeatRun(s, later, c, s.db.keys[KeyOf(s.calls[c].req)]);
    RunKeeps(s, later);
    RecordHasBid(Exec(s, later).db, KeyOf(s.calls[c].req));
  }

  /** An end in anything but the record's reply. */
  lemma NotTheRecord(s: Sys, c: nat, record: Record) returns (later: seq<Action>)
    requires Inv(s) && c in s.calls && Lookup(s.db.keys, KeyOf(s.calls[c].req)) == Some(record) && record.response.Some?
    requires var reply := RecordReply(record, s.calls[c].req);
             var p := s.calls[c].phase;
             p == Unsettled || p == Admitted || (p == Holding && reply.Accepted?)
    ensures var s' := Exec(s, later);
            c in s'.calls && s'.calls[c].phase.Done? && s'.calls[c].phase.reply != RecordReply(record, s.calls[c].req)
  {
    hide Inv, Next, RepeatEnd, Lookup;
    var p := s.calls[c].phase;
    if p == Holding {
      later := [RunTx(c, 0, Lost(false))];
      OneStep(s, later[0]);
      LostTurnsAway(s, c, record);
    } else if p == Admitted {
      later := [TakeLock(c, Busy)];
      OneStep(s, later[0]);
      BusyTurnsAway(s, c);
    } else {
      var s1 := Next(s, ReadAuction(c, 0));
      ReadTurnsAwayOrAdmits(s, c);
      if s1.calls[c].phase.Done? {
        later := [ReadAuction(c, 0)];
        OneStep(s, later[0]);
      } else {
        later := [ReadAuction(c, 0), TakeLock(c, Busy)];
        assert later[1..] == [TakeLock(c, Busy)];
        OneStep(s1, TakeLock(c, Busy));
        BusyTurnsAway(s1, c);
      }
    }
  }

  lemma OneStep(s: Sys, act: Action)
    ensures Exec(s, [act]) == Next(s, act)
  {
    assert [act][1..] == [];
  }

  lemma LostTurnsAway(s: Sys, c: nat, record: Record)
    requires Inv(s) && At(s, c, Holding) && Lookup(s.db.keys, KeyOf(s.calls[c].req)) == Some(record)
    requires record.response.Some? && RecordReply(record, s.calls[c].req).Accepted?
    ensures var s' := Next(s, RunTx(c, 0, Lost(false)));
            c in s'.calls && s'.calls[c].phase == Done(Refused(Error.Storage))
  {
    hide DbInv, CallsOk, AcceptTx, Validate;
    RecordSettles(s.db, s.calls[c].req, record);
  }

  lemma BusyTurnsAway(s: Sys, c: nat)
    requires At(s, c, Admitted)
    ensures var s' := Next(s, TakeLock(c, Busy)); c in s'.calls && s'.calls[c].phase == Done(Refused(BidConflict))
  {
  }

  lemma ReadTurnsAwayOrAdmits(s: Sys, c: nat)
    requires At(s, c, Unsettled)
    ensures var s' := Next(s, ReadAuction(c, 0));
            && c in s'.calls && s'.calls[c].req == s.calls[c].req
            && (s'.calls[c].phase == Admitted
                || (s'.calls[c].phase.Done? && TurnedAway(s'.calls[c].phase.reply)
                    && s'.calls[c].phase.reply != Refused(IdempotencyConflict)))
  {
    hide OnSnapshot;
    SnapshotTurnsAway(Lookup(s.db.auctions, s.calls[c].req.auctionId), s.calls[c].req, 0);
  }

  /** Exactly when is a call whose key has a record sure of the record's reply, in every continuation? When it has still
      to look for the record, or is in its transaction with another amount. */
  lemma SureOfTheRecord(clock: int, acts: seq<Action>, c: nat)
    requires var s := Exec(Boot(clock), acts);
             c in s.calls && !s.calls[c].phase.Done? && KeyOf(s.calls[c].req) in s.db.keys
    ensures var s := Exec(Boot(clock), acts);
            var req, p := s.calls[c].req, s.calls[c].phase;
            var record := s.db.keys[KeyOf(req)];
            && record.response.Some?
            && ((forall later :: AnsweredBy(Exec(s, later), c, RecordReply(record, req)))
                <==> p == Arrived || (p == Holding && record.fingerprint.amount != req.amount))
  {
    hide DbInv, CallsOk, Next;
    Reachable(clock, acts);
    var s := Exec(Boot(clock), acts);
    var req, p := s.calls[c].req, s.calls[c].phase;
    var record := s.db.keys[KeyOf(req)];
    RecordSettles(s.db, req, record);
    if p == Arrived || (p == Holding && record.fingerprint.amount != req.amount) {
      forall later
        ensures AnsweredBy(Exec(s, later), c, RecordReply(record, req))
      {
        SettlingRun(s, later, c, record);
      }
    } else {
      var later := NotTheRecord(s, c, record);
      assert !AnsweredBy(Exec(s, later), c, RecordReply(record, req));
    }
  }

  /** A request that fails the first check never gets further. */
  predicate Screened(s: Sys) {
    forall c | c in s.calls && BadRequest(s.calls[c].req) :: s.calls[c].phase == Done(Refused(InvalidParam))
  }

  lemma {:induction false} StaysScreened(s: Sys, acts: seq<Action>)
    requires Screened(s)
    ensures Screened(Exec(s, acts))
    decreases |acts|
  {
    hide Next, BadRequest;
    if acts != [] {
      ScreenedNext(s, acts[0]);
      StaysScreened(Next(s, acts[0]), acts[1..]);
    }
  }

  lemma ScreenedNext(s: Sys, act: Action)
    requires Screened(s)
    ensures Screened(Next(s, act))
  {
    hide StartTx, EndCall, CancelTx, CreateTx, UpdateTx, AfterTx, OnSnapshot, FromRecord, BadRequest;
  }

  /** A repeat sent after the first answer gets that answer and no other, whatever has happened to the auction. */
  lemma FirstAnswerStands(clock: int, acts: seq<Action>, later: seq<Action>, c: nat, d: nat)
    requires var s := Exec(Boot(clock), acts);
             && c in s.calls && s.calls[c].phase.Done? && s.calls[c].phase.reply.Accepted?
             && d !in s.calls
    ensures var s := Exec(Boot(clock), acts);
            AnsweredBy(Exec(Next(s, Arrive(d, s.calls[c].req)), later), d, s.calls[c].phase.reply)
  {
    hide DbInv, Next, BadRequest;
    Reachable(clock, acts);
    StaysScreened(Boot(clock), acts);
    var s := Exec(Boot(clock), acts);
    var req := s.calls[c].req;
    assert OnRecord(s.db, req, s.calls[c].phase.reply.result);
    RecordSettles(s.db, req, s.db.keys[KeyOf(req)]);
    AmountOnRecord(s.db, req);
    NextKeeps(s, Arrive(d, req));
    Arrives(s, d, req);
    SettlingRun(Next(s, Arrive(d, req)), later, d, s.db.keys[KeyOf(req)]);
  }

  lemma AmountOnRecord(db: Db, req: Request)
    requires DbInv(db) && KeyOf(req) in db.keys
    ensures var record := db.keys[KeyOf(req)];
            record.response.Some? && record.fingerprint.amount == record.response.value.bid.amount
  {
    hide SliceInv, NoHoles, KeysOk;
    RecordHasBid(db, KeyOf(req));
  }

  lemma Arrives(s: Sys, d: nat, req: Request)
    requires d !in s.calls && !BadRequest(req)
    ensures var s' := Next(s, Arrive(d, req)); d in s'.calls && s'.calls[d] == Call(req, Arrived) && s'.db == s.db
  {
  }

  // ---- orders ----

  /** An auction has one order exactly if it ended with a leader, and the order is that deal. */
  lemma OrderConservation(clock: int, acts: seq<Action>, id: int)
    ensures var db := Exec(Boot(clock), acts).db;
            && (id in db.orders <==>
                 id in db.auctions && db.auctions[id].status == Ended && db.auctions[id].leaderId.Some?)
            && (id in db.orders ==>
                 && Some(db.orders[id].winnerId) == db.auctions[id].leaderId
                 && db.orders[id].sellerId == db.auctions[id].config.sellerId
                 && db.orders[id].finalPrice == db.auctions[id].currentPrice)
  {
    hide KeysOk, NoHoles, CallsOk, BidsOk, LogOk, DeadlineOk, ConfigOk, Rebuilds, PhaseOk;
    Reachable(clock, acts);
    var db := Exec(Boot(clock), acts).db;
    if id in db.auctions {
      assert SliceInv(id, SliceOf(db, id));
    }
  }

  /** In reachable states no statement meets a duplicate key and no existing order contradicts the row. */
  lemma NoStorageErrors(clock: int, acts: seq<Action>, req: Request, now: int, id: int, sellerId: int, ids: seq<int>)
    ensures var s := Exec(Boot(clock), acts);
            && AfterTx(s.db, req, now, s.clock, Committed).1 != Refused(Error.Storage)
            && EndTx(s.db, id, s.clock).Commit?
            && StartTx(s.db, ids, s.clock).Commit?
            && (CancelTx(s.db, id, sellerId).Abort? ==> CancelTx(s.db, id, sellerId).error != Error.Storage)
  {
    hide DbInv, AfterTx, EndTx, StartTx, CancelTx;
    Reachable(clock, acts);
    var s := Exec(Boot(clock), acts);
    AfterKeeps(s.db, req, now, s.clock, Committed);
    EndKeeps(s.db, id, s.clock);
    StartKeeps(s.db, ids, s.clock);
    CancelKeeps(s.db, id, sellerId);
  }

  /** What a worker's end of auction `id` reports. */
  function EndReport(s: Sys, act: Action, id: int): EndResult {
    if act.EndOne? && act.id == id && EndCall(s.db, id, s.clock, act.commit).1.Reported?
    then EndCall(s.db, id, s.clock, act.commit).1.value else EndResult(false, None)
  }

  /** How many times the workers report having ended an auction, and having found or made its order. */
  function Ends(s: Sys, acts: seq<Action>, id: int): nat
    decreases |acts|
  {
    if acts == [] then 0
    else (if EndReport(s, acts[0], id).ended then 1 else 0) + Ends(Next(s, acts[0]), acts[1..], id)
  }

  function Orders(s: Sys, acts: seq<Action>, id: int): nat
    decreases |acts|
  {
    if acts == [] then 0
    else (if EndReport(s, acts[0], id).orderId.Some? then 1 else 0) + Orders(Next(s, acts[0]), acts[1..], id)
  }

  function EndedSince(db: Db, d: Db): set<int>
    requires db.auctions.Keys == d.auctions.Keys
  {
    set id | id in db.auctions && db.auctions[id].status == Active && d.auctions[id].status == Ended
  }

  /** Ending is the only change of status between the two. */
  predicate OnlyEnds(db: Db, d: Db) {
    && db.auctions.Keys == d.auctions.Keys
    && forall id | id in db.auctions ::
         || d.auctions[id].status == db.auctions[id].status
         || (db.auctions[id].status == Active && d.auctions[id].status == Ended)
  }

  lemma OneMoreEnd(db: Db, d: Db, d': Db, id: int, ended: bool)
    requires OnlyEnds(db, d) && d'.auctions.Keys == d.auctions.Keys
    requires forall k | k in d.auctions && k != id :: d'.auctions[k].status == d.auctions[k].status
    requires if ended then id in d.auctions && d.auctions[id].status == Active && d'.auctions[id].status == Ended
             else d'.auctions == d.auctions
    ensures OnlyEnds(db, d')
    ensures |EndedSince(db, d')| == |EndedSince(db, d)| + if ended then 1 else 0
  {
    var was, now := EndedSince(db, d), EndedSince(db, d');
    forall k | k in db.auctions
      ensures k in now <==> k in was || (ended && k == id)
    {
      assert k in d.auctions && k in d'.auctions;
    }
    assert now == was + if ended then {id} else {};
  }

  /** What the last of the turns ended and committed although its commit reported an error. */
  function LastUnreported(db: Db, turns: seq<Lifecycle.EndTurn>): EndResult
    requires turns != []
  {
    var turn := turns[|turns| - 1];
    var tx := EndTx(Lifecycle.EndAll(db, turns[..|turns| - 1]).0, turn.id, turn.clock);
    if turn.commit == Lost(true) && tx.Commit? then tx.value else EndResult(false, None)
  }

  /** The ends that were committed unreported. */
  function Unreported(db: Db, turns: seq<Lifecycle.EndTurn>): nat {
    if turns == [] then 0
    else Unreported(db, turns[..|turns| - 1]) + if LastUnreported(db, turns).ended then 1 else 0
  }

  /** And those of them that had a leader. */
  function UnreportedOrders(db: Db, turns: seq<Lifecycle.EndTurn>): nat {
    if turns == [] then 0
    else UnreportedOrders(db, turns[..|turns| - 1]) + if LastUnreported(db, turns).orderId.Some? then 1 else 0
  }

  /** A worker's cycle counts what it did, except for commits that were applied unreported: the auctions it moved from
      active to ended and the rows it added to `orders`. */
  lemma {:induction false} CycleCounts(db: Db, turns: seq<Lifecycle.EndTurn>)
    requires DbInv(db)
    ensures var (d, t) := Lifecycle.EndAll(db, turns);
            && DbInv(d)
            && OnlyEnds(db, d)
            && |EndedSince(db, d)| == t.ended + Unreported(db, turns)
            && |d.orders| - |db.orders| == t.orders + UnreportedOrders(db, turns)
            && UnreportedOrders(db, turns) <= Unreported(db, turns)
    decreases |turns|
  {
    hide DbInv, EndTx, OnlyEnds, EndedSince;
    if turns == [] {
      NoneEnded(db);
    } else {
      var turn := turns[|turns| - 1];
      CycleCounts(db, turns[..|turns| - 1]);
      var d := Lifecycle.EndAll(db, turns[..|turns| - 1]).0;
      EndKeeps(d, turn.id, turn.clock);
      EndMoves(d, turn.id, turn.clock);
      var tx := EndTx(d, turn.id, turn.clock);
      OneMoreEnd(db, d, tx.db, turn.id, tx.value.ended);
    }
  }

  /** A due auction whose end was tried and whose commit was lost. */
  function LostEnds(db: Db, turns: seq<Lifecycle.EndTurn>): nat {
    if turns == [] then 0 else
    var n := |turns| - 1;
    var tx := EndTx(Lifecycle.EndAll(db, turns[..n]).0, turns[n].id, turns[n].clock);
    LostEnds(db, turns[..n]) + if turns[n].commit.Lost? && tx.Commit? && tx.value.ended then 1 else 0
  }

  /** The errors of a cycle are one for each lost commit, and there are no others. */
  lemma {:induction false} CycleErrors(db: Db, turns: seq<Lifecycle.EndTurn>)
    requires DbInv(db)
    ensures var t := Lifecycle.EndAll(db, turns).1;
            |t.errors| == LostEnds(db, turns) && forall e | e in t.errors :: e == Error.Storage
    decreases |turns|
  {
    hide DbInv, EndTx;
    if turns != [] {
      var turn := turns[|turns| - 1];
      CycleErrors(db, turns[..|turns| - 1]);
      CycleCounts(db, turns[..|turns| - 1]);
      EndKeeps(Lifecycle.EndAll(db, turns[..|turns| - 1]).0, turn.id, turn.clock);
    }
  }

  lemma NoneEnded(db: Db)
    ensures OnlyEnds(db, db) && |EndedSince(db, db)| == 0
  {
    assert EndedSince(db, db) == {};
  }

  /** What one EndOne does to the statuses and the number of orders. */
  lemma EndMoves(db: Db, id: int, dbNow: int)
    requires DbInv(db)
    ensures var tx := EndTx(db, id, dbNow);
            && tx.Commit?
            && tx.db.auctions.Keys == db.auctions.Keys
            && (forall k | k in db.auctions && k != id :: tx.db.auctions[k].status == db.auctions[k].status)
            && (if tx.value.ended
                then id in db.auctions && db.auctions[id].status == Active && tx.db.auctions[id].status == Ended
                else tx.db == db && tx.value.orderId.None?)
            && |tx.db.orders| == |db.orders| + if tx.value.orderId.Some? then 1 else 0
  {
    hide KeysOk, NoHoles, SliceInv, Grows;
    EndKeeps(db, id, dbNow);
    if id in db.auctions && db.auctions[id].status == Active {
      NoOrderWhileActive(id, SliceOf(db, id));
    }
  }

  predicate IsOver(s: Sys, id: int) {
    id in s.db.auctions && Over(s.db.auctions[id].status)
  }

  lemma EndReported(s: Sys, act: Action, id: int)
    requires Inv(s)
    ensures IsOver(s, id) ==> IsOver(Next(s, act), id)
    ensures EndReport(s, act, id).ended ==> !IsOver(s, id) && IsOver(Next(s, act), id)
    ensures EndReport(s, act, id).orderId.Some? ==> EndReport(s, act, id).ended
  {
    hide DbInv, CallsOk, AfterTx, CreateTx, UpdateTx, CancelTx, StartTx, LogOf, OnSnapshot, FromRecord, BadRequest;
    NextDb(s, act);
  }

  /** Over a whole run, an auction adds at most one to all the workers' totals. */
  lemma {:induction false} EndsOnce(s: Sys, acts: seq<Action>, id: int)
    requires Inv(s)
    ensures Orders(s, acts, id) <= Ends(s, acts, id) <= (if IsOver(s, id) then 0 else 1)
    decreases |acts|
  {
    hide Inv, EndReport, IsOver, Next;
    if acts != [] {
      NextKeeps(s, acts[0]);
      EndReported(s, acts[0], id);
      EndsOnce(Next(s, acts[0]), acts[1..], id);
    }
  }

  // ---- sellers ----

  /** In a run, the seller's cancel of a live auction cancels it, and his update of a pending one revises it. */
  lemma SellersAct(clock: int, acts: seq<Action>, id: int, sellerId: int, t: Terms, now: int)
    ensures var s := Exec(Boot(clock), acts);
            var c, u := Next(s, Cancel(id, sellerId)), Next(s, Update(id, sellerId, t, now));
            id in s.db.auctions ==>
              && id in c.db.auctions && id in u.db.auctions
              && (c.db.auctions[id].status == Cancelled
                  <==> s.db.auctions[id].status == Cancelled
                       || (s.db.auctions[id].config.sellerId == sellerId && !Over(s.db.auctions[id].status)))
              && (UpdateTx(s.db, id, sellerId, t, now, s.clock).Commit? ==>
                   IsRevised(s.db.auctions[id], u.db.auctions[id], t))
              && (u.db != s.db ==> s.db.auctions[id].config.sellerId == sellerId)
  {
    hide DbInv, CallsOk, CancelTx, UpdateTx, IsRevised, LogOf;
    Reachable(clock, acts);
    var s := Exec(Boot(clock), acts);
    CancelCancels(s.db, id, sellerId);
    UpdateUpdates(s.db, id, sellerId, t, now, s.clock);
  }

  // ---- deadlines ----

  /** Once the database clock has reached an auction's deadline, price, leader, count and deadline stand. */
  predicate Closed(s: Sys, id: int, a: Auction) {
    && id in s.db.auctions
    && s.db.auctions[id].status != Pending
    && s.db.auctions[id].currentPrice == a.currentPrice
    && s.db.auctions[id].leaderId == a.leaderId
    && s.db.auctions[id].bidCount == a.bidCount
    && s.db.auctions[id].endTime == a.endTime
    && (s.db.auctions[id].status == Active ==> a.endTime <= s.clock)
  }

  lemma ClosedToBids(s: Sys, req: Request, now: int, id: int)
    requires Inv(s) && id in s.db.auctions
    requires s.db.auctions[id].status != Active || s.db.auctions[id].endTime <= s.clock
    ensures PlaceTx(s.db, req, now, s.clock).Commit? ==>
              id in PlaceTx(s.db, req, now, s.clock).db.auctions
              && PlaceTx(s.db, req, now, s.clock).db.auctions[id] == s.db.auctions[id]
  {
    hide SliceInv, NoHoles, AcceptTx;
    if KeyOf(req) in s.db.keys {
      KnownKey(s.db, req);
    } else if PlaceTx(s.db, req, now, s.clock).Commit? {
      NewKey(s.db, req, now, s.clock);
      AcceptWrites(s.db, req, now, s.clock);
    }
  }

  /** Starting leaves every row alone that is not pending. */
  lemma {:induction false} StartLeaves(db: Db, ids: seq<int>, dbNow: int, id: int)
    requires id in db.auctions && db.auctions[id].status != Pending
    ensures StartTx(db, ids, dbNow).Commit? ==>
              id in StartTx(db, ids, dbNow).db.auctions && StartTx(db, ids, dbNow).db.auctions[id] == db.auctions[id]
    decreases |ids|
  {
    if ids != [] {
      StartLeaves(db, ids[..|ids| - 1], dbNow, id);
    }
  }

  lemma ClosedNext(s: Sys, act: Action, id: int, a: Auction)
    requires Inv(s) && Closed(s, id, a)
    ensures Closed(Next(s, act), id, a)
  {
    hide DbInv, CallsOk, BadRequest, PlaceTx, StartTx, Grows, OnSnapshot, FromRecord, CreateTx;
    NextDb(s, act);
    if act.RunTx? && At(s, act.call, Holding) {
      ClosedToBids(s, s.calls[act.call].req, act.now, id);
    } else if act.StartDue? {
      StartLeaves(s.db, act.ids, s.clock, id);
    } else if act.Create? {
      CreateLeaves(s.db, act.id, act.sellerId, act.terms, act.now, id);
    }
  }

  lemma CreateLeaves(db: Db, newId: int, sellerId: int, t: Terms, now: int, id: int)
    requires id in db.auctions
    ensures CreateTx(db, newId, sellerId, t, now).Commit? ==>
              id in CreateTx(db, newId, sellerId, t, now).db.auctions
              && CreateTx(db, newId, sellerId, t, now).db.auctions[id] == db.auctions[id]
  {
  }

  lemma {:induction false} StaysClosed(s: Sys, acts: seq<Action>, id: int, a: Auction)
    requires Inv(s) && Closed(s, id, a)
    ensures Closed(Exec(s, acts), id, a)
    decreases |acts|
  {
    hide DbInv, CallsOk, Closed, Next;
    if acts != [] {
      NextKeeps(s, acts[0]);
      ClosedNext(s, acts[0], id, a);
      StaysClosed(Next(s, acts[0]), acts[1..], id, a);
    }
  }

  /** Once the database clock has reached an active auction's deadline, no run changes its price, leader, count or
      deadline any more. */
  lemma DeadlineStability(clock: int, acts: seq<Action>, later: seq<Action>, id: int)
    ensures var s := Exec(Boot(clock), acts);
            var s' := Exec(s, later);
            id in s.db.auctions && s.db.auctions[id].status == Active && s.db.auctions[id].endTime <= s.clock ==>
              && id in s'.db.auctions
              && var a, b := s.db.auctions[id], s'.db.auctions[id];
              && b.status != Pending
              && b.currentPrice == a.currentPrice && b.leaderId == a.leaderId
              && b.bidCount == a.bidCount && b.endTime == a.endTime
  {
    hide Inv;
    Reachable(clock, acts);
    var s := Exec(Boot(clock), acts);
    if id in s.db.auctions && s.db.auctions[id].status == Active && s.db.auctions[id].endTime <= s.clock {
      StaysClosed(s, later, id, s.db.auctions[id]);
    }
  }

  /** What an action that ends auction `id` is: a worker at or after its deadline, or a bid of exactly its ceiling
      before it. */
  predicate EndsIt(s: Sys, act: Action, id: int)
    requires id in s.db.auctions
  {
    && s.db.auctions[id].status == Active
    && (|| (act.EndOne? && act.id == id && s.db.auctions[id].endTime <= s.clock)
        || (act.RunTx? && act.call in s.calls && s.calls[act.call].req.auctionId == id
            && s.db.auctions[id].config.ceilingPrice == Some(s.calls[act.call].req.amount)
            && s.clock < s.db.auctions[id].endTime))
  }

  lemma EndingStep(s: Sys, act: Action, id: int)
    requires Inv(s) && id in s.db.auctions
    ensures id in Next(s, act).db.auctions
    ensures s.db.auctions[id].status != Ended && Next(s, act).db.auctions[id].status == Ended ==> EndsIt(s, act, id)
  {
    hide DbInv, CallsOk, BadRequest, PlaceTx, StartTx, OnSnapshot, FromRecord, CreateTx, LogOf, Evolves;
    NextDb(s, act);
    if s.db.auctions[id].status != Ended {
      if act.RunTx? && At(s, act.call, Holding) {
        if PlaceTx(s.db, s.calls[act.call].req, act.now, s.clock).Commit? {
          BidEnds(s.db, s.calls[act.call].req, act.now, s.clock, id);
        }
      } else if act.StartDue? {
        StartNeverEnds(s.db, act.ids, s.clock, id);
      } else if act.Create? {
        CreateLeaves(s.db, act.id, act.sellerId, act.terms, act.now, id);
      }
    }
  }

  /** In every reachable state, only such an action ends an auction. */
  lemma WhatEnds(clock: int, acts: seq<Action>, act: Action, id: int)
    ensures var s := Exec(Boot(clock), acts);
            id in s.db.auctions && s.db.auctions[id].status != Ended ==>
              && id in Next(s, act).db.auctions
              && (Next(s, act).db.auctions[id].status == Ended ==> EndsIt(s, act, id))
  {
    hide Inv, Next, EndsIt;
    Reachable(clock, acts);
    if id in Exec(Boot(clock), acts).db.auctions {
      EndingStep(Exec(Boot(clock), acts), act, id);
    }
  }

  lemma BidEnds(db: Db, req: Request, now: int, dbNow: int, id: int)
    requires DbInv(db) && id in db.auctions && db.auctions[id].status != Ended && PlaceTx(db, req, now, dbNow).Commit?
    ensures id in PlaceTx(db, req, now, dbNow).db.auctions
    ensures PlaceTx(db, req, now, dbNow).db.auctions[id].status == Ended ==>
              && db.auctions[id].status == Active && req.auctionId == id && dbNow < db.auctions[id].endTime
              && db.auctions[id].config.ceilingPrice == Some(req.amount)
  {
    hide SliceInv, NoHoles, AcceptTx;
    if KeyOf(req) in db.keys {
      KnownKey(db, req);
    } else {
      NewKey(db, req, now, dbNow);
      AcceptWrites(db, req, now, dbNow);
    }
  }

  lemma {:induction false} StartNeverEnds(db: Db, ids: seq<int>, dbNow: int, id: int)
    requires id in db.auctions && db.auctions[id].status != Ended
    ensures StartTx(db, ids, dbNow).Commit? ==>
              id in StartTx(db, ids, dbNow).db.auctions && StartTx(db, ids, dbNow).db.auctions[id].status != Ended
    decreases |ids|
  {
    if ids != [] {
      StartNeverEnds(db, ids[..|ids| - 1], dbNow, id);
    }
  }

  /** Between any two moments of a run the deadline of an active auction never moves back. */
  lemma DeadlineNeverBack(s: Sys, acts: seq<Action>, id: int)
    requires Inv(s) && id in s.db.auctions && s.db.auctions[id].status == Active
    ensures id in Exec(s, acts).db.auctions
    ensures var a := Exec(s, acts).db.auctions[id];
            && (a.status == Active ==> s.db.auctions[id].endTime <= a.endTime)
            && s.db.auctions[id].currentPrice <= a.currentPrice
            && s.db.auctions[id].bidCount <= a.bidCount
            && a.config == s.db.auctions[id].config
  {
    RunKeeps(s, acts);
  }

  function Min(x: int, y: int): int {
    if x < y then x else y
  }

  /** An accepted bid of the ceiling ends the auction and extends nothing; after any other, strictly more than the
      smaller of threshold and extension remains at `now`, and it extends exactly when within the threshold. */
  predicate Protects(db: Db, d: Db, req: Request, now: int)
    requires req.auctionId in db.auctions && req.auctionId in d.auctions
  {
    var a, b := db.auctions[req.auctionId], d.auctions[req.auctionId];
    var extensions, extensions' := CountExtended(LogOf(db, req.auctionId)), CountExtended(LogOf(d, req.auctionId));
    if a.config.ceilingPrice == Some(req.amount) then
      b.status == Ended && extensions' == extensions
    else
      && b.status == Active
      && b.endTime - now > Min(a.config.extendThreshold, a.config.extendSeconds) * SECOND
      && (extensions' == extensions + 1 <==> a.endTime - now <= a.config.extendThreshold * SECOND)
  }

  lemma BidProtects(db: Db, req: Request, now: int, dbNow: int)
    requires DbInv(db) && KeyOf(req) !in db.keys && PlaceTx(db, req, now, dbNow).Commit?
    ensures req.auctionId in db.auctions && req.auctionId in PlaceTx(db, req, now, dbNow).db.auctions
    ensures Protects(db, PlaceTx(db, req, now, dbNow).db, req, now)
  {
    hide SliceInv, NoHoles, KeysOk, LogOf, CountExtended, PlaceTx, AcceptTx, PlaceEvents, Fold, BidsOf;
    NewKey(db, req, now, dbNow);
    AcceptWrites(db, req, now, dbNow);
    AcceptSlices(db, req, now, dbNow);
    var a := db.auctions[req.auctionId];
    var d := PlaceTx(db, req, now, dbNow).db;
    BidView(LogOf(db, req.auctionId), req.auctionId, a, NewBid(db, req), now, db.nextOrderId);
    assert SliceOf(d, req.auctionId).log == LogOf(d, req.auctionId);
    ConfigHolds(db, req.auctionId);
  }

  /** Whenever a call of a run commits a new bid, whether or not it learns so, the bid protects against sniping on the
      clock that judged it. */
  lemma AntiSniping(clock: int, acts: seq<Action>, c: nat, now: int, commit: CommitOutcome)
    ensures var s := Exec(Boot(clock), acts);
            var s' := Next(s, RunTx(c, now, commit));
            c in s.calls && KeyOf(s.calls[c].req) !in s.db.keys && KeyOf(s.calls[c].req) in s'.db.keys ==>
              && s.calls[c].req.auctionId in s.db.auctions && s.calls[c].req.auctionId in s'.db.auctions
              && Protects(s.db, s'.db, s.calls[c].req, now)
  {
    hide DbInv, CallsOk, PlaceTx, Protects;
    Reachable(clock, acts);
    var s := Exec(Boot(clock), acts);
    if At(s, c, Holding) && KeyOf(s.calls[c].req) !in s.db.keys && PlaceTx(s.db, s.calls[c].req, now, s.clock).Commit? {
      BidProtects(s.db, s.calls[c].req, now, s.clock);
    }
  }

  lemma ConfigHolds(db: Db, id: int)
    requires DbInv(db) && id in db.auctions
    ensures ConfigOk(db.auctions[id])
  {
    assert SliceInv(id, SliceOf(db, id));
  }
}
