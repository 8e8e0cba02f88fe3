/** The lifecycle worker and the seller's commands, statement by statement over the shared tables. */
module Lifecycle {
  import opened AuctionTypes
  import opened BidRules
  import opened Tables
  import opened Storage

  class LifecycleRepository {
    const db: Database

    constructor (db: Database)
      ensures this.db == db
    {
      this.db := db;
    }

    /** Starts the candidate rows that the worker has locked, in one transaction. */
    method StartDue(ids: seq<int>, dbNow: int, commit: CommitOutcome) returns (answer: Answer<nat>)
      modifies db
      ensures (db.State(), answer) == Settle(old(db.State()), StartTx(old(db.State()), ids, dbNow), commit)
    {
      var saved := db.Begin();
      var started: nat := 0;
      var i := 0;
      while i < |ids|
        invariant 0 <= i <= |ids|
        invariant StartTx(saved, ids[..i], dbNow) == Commit(db.State(), started)
      {
        assert ids[..i + 1][..i] == ids[..i] && ids[..i + 1][i] == ids[i];
        if ids[i] in db.auctions && DueToStart(db.auctions[ids[i]], dbNow) {
          var a := db.auctions[ids[i]];
          db.auctions := db.auctions[ids[i] := a.(status := Active, version := a.version + 1)];
          InsertOne(db.outbox, ids[i], StartEvent(ids[i], a));
          var ok := db.InsertOutbox(ids[i], StartEvent(ids[i], a));
          if !ok {
            StartAborts(saved, ids, i + 1, dbNow);
            db.Rollback(saved);
            return Faulted(Error.Storage);
          }
          started := started + 1;
        }
        i := i + 1;
      }
      assert ids[..|ids|] == ids;
      answer := Reported(started);
      if commit.Lost? {
        if !commit.applied {
          db.Rollback(saved);
        }
        answer := Faulted(Error.Storage);
      }
    }

    lemma {:induction false} StartAborts(d: Db, ids: seq<int>, i: nat, dbNow: int)
      requires i <= |ids| && StartTx(d, ids[..i], dbNow) == Abort(Error.Storage)
      ensures StartTx(d, ids, dbNow) == Abort(Error.Storage)
      decreases |ids|
    {
      if i < |ids| {
        assert ids[..|ids| - 1][..i] == ids[..i];
        StartAborts(d, ids[..|ids| - 1], i, dbNow);
      } else {
        assert ids[..i] == ids;
      }
    }

    method EndOne(id: int, dbNow: int, commit: CommitOutcome) returns (answer: Answer<EndResult>)
      modifies db
      ensures (db.State(), answer) == EndCall(old(db.State()), id, dbNow, commit)
    {
      var saved := db.Begin();
      if id !in db.auctions || db.auctions[id].status != Active {
        return Reported(EndResult(false, None));
      }
      var item := db.auctions[id];
      if item.endTime > dbNow {
        return Reported(EndResult(false, None));
      }
      db.auctions := db.auctions[id := item.(status := Ended, version := item.version + 1)];
      var orderId := None;
      if item.leaderId.Some? {
        orderId := db.EnsureOrder(id, item.leaderId.value, item.config.sellerId, item.currentPrice);
        if orderId.None? {
          db.Rollback(saved);
          return Faulted(OrderConflict);
        }
      }
      InsertOne(db.outbox, id, EndEvent(id, item, orderId));
      var ok := db.InsertOutbox(id, EndEvent(id, item, orderId));
      if !ok {
        db.Rollback(saved);
        return Faulted(Error.Storage);
      }
      answer := Reported(EndResult(true, orderId));
      if commit.Lost? {
        if !commit.applied {
          db.Rollback(saved);
        }
        answer := Faulted(Error.Storage);
      }
    }
  }

  class AuctionRepository {
    const db: Database

    constructor (db: Database)
      ensures this.db == db
    {
      this.db := db;
    }

    method Cancel(id: int, sellerId: int, commit: CommitOutcome) returns (answer: Answer<()>)
      modifies db
      ensures (db.State(), answer) == Settle(old(db.State()), CancelTx(old(db.State()), id, sellerId), commit)
    {
      var saved := db.Begin();
      if id !in db.auctions {
        return Faulted(AuctionNotFound);
      }
      var a := db.auctions[id];
      if a.config.sellerId != sellerId {
        return Faulted(Forbidden);
      }
      if a.status == Ended {
        return Faulted(AlreadyEnded);
      }
      if a.status == Cancelled {
        return Faulted(AlreadyCancelled);
      }
      db.auctions := db.auctions[id := a.(status := Cancelled, version := a.version + 1)];
      InsertOne(db.outbox, id, CancelEvent(id, a));
      var ok := db.InsertOutbox(id, CancelEvent(id, a));
      if !ok {
        db.Rollback(saved);
        return Faulted(Error.Storage);
      }
      answer := Reported(());
      if commit.Lost? {
        if !commit.applied {
          db.Rollback(saved);
        }
        answer := Faulted(Error.Storage);
      }
    }

    /** Writes the named columns one after the other, as the UPDATE statement is assembled. */
    method Update(id: int, sellerId: int, t: Terms, now: int, dbNow: int) returns (answer: Answer<()>)
      modifies db
      ensures match UpdateTx(old(db.State()), id, sellerId, t, now, dbNow)
              case Commit(d, _) => db.State() == d && answer == Reported(())
              case Abort(e) => db.State() == old(db.State()) && answer == Faulted(e)
    {
      if id !in db.auctions {
        return Faulted(AuctionNotFound);
      }
      var existing := db.auctions[id];
      if existing.config.sellerId != sellerId {
        return Faulted(Forbidden);
      }
      if existing.status != Pending || existing.config.startTime <= now {
        return Faulted(NotPending);
      }
      var ceiling := if t.ceilingPrice.Some? then t.ceilingPrice else existing.config.ceilingPrice;
      if !PricesOk(Or(t.startPrice, existing.config.startPrice), Or(t.priceStep, existing.config.priceStep), ceiling)
         || !WithinLimits(t, now) {
        return Faulted(InvalidParam);
      }
      if t == UNCHANGED {
        return Reported(());
      }
      if existing.config.startTime <= dbNow {
        return Faulted(NotPending);
      }
      var a, c := existing, existing.config;
      if t.startPrice.Some? {
        a, c := a.(currentPrice := t.startPrice.value), c.(startPrice := t.startPrice.value);
      }
      if t.priceStep.Some? {
        c := c.(priceStep := t.priceStep.value);
      }
      if t.ceilingPrice.Some? {
        c := c.(ceilingPrice := t.ceilingPrice);
      }
      if t.startTime.Some? {
        c := c.(startTime := t.startTime.value);
      }
      if t.startTime.Some? || t.durationSeconds.Some? {
        var end := c.startTime
                   + Or(t.durationSeconds, (existing.endTime - existing.config.startTime) / SECOND) * SECOND;
        a, c := a.(endTime := end), c.(originalEndTime := end);
      }
      if t.extendSeconds.Some? {
        c := c.(extendSeconds := t.extendSeconds.value);
      }
      if t.extendThreshold.Some? {
        c := c.(extendThreshold := t.extendThreshold.value);
      }
      a := a.(config := c);
      db.auctions := db.auctions[id := a];
      answer := Reported(());
    }

    method Create(id: int, sellerId: int, t: Terms, now: int) returns (answer: Answer<()>)
      modifies db
      ensures match CreateTx(old(db.State()), id, sellerId, t, now)
              case Commit(d, _) => db.State() == d && answer == Reported(())
              case Abort(e) => db.State() == old(db.State()) && answer == Faulted(e)
    {
      if t.startPrice.None? || t.priceStep.None? || t.startTime.None? || t.durationSeconds.None? {
        return Faulted(InvalidParam);
      }
      if !PricesOk(t.startPrice.value, t.priceStep.value, t.ceilingPrice) || !WithinLimits(t, now) {
        return Faulted(InvalidParam);
      }
      if id in db.auctions {
        return Faulted(Error.Storage);
      }
      var endAt := t.startTime.value + t.durationSeconds.value * SECOND;
      db.auctions := db.auctions[id :=
        Auction(Config(sellerId, t.startPrice.value, t.priceStep.value, t.ceilingPrice, t.startTime.value, endAt,
                       Or(t.extendSeconds, 30), Or(t.extendThreshold, 30)),
                Pending, t.startPrice.value, None, 0, endAt, 0)];
      answer := Reported(());
    }
  }

  datatype CycleResult = CycleResult(started: nat, ended: nat, orders: nat)

  /** One listed auction, the instant at which its end was tried, and what became of the commit. */
  datatype EndTurn = EndTurn(id: int, clock: int, commit: CommitOutcome)

  datatype Tally = Tally(ended: nat, orders: nat, errors: seq<Error>)

  function Tallied(t: Tally, answer: Answer<EndResult>): Tally {
    match answer
    case Faulted(e) => t.(errors := t.errors + [e])
    case Reported(r) => t.(ended := t.ended + if r.ended then 1 else 0,
                           orders := t.orders + if r.orderId.Some? then 1 else 0)
  }

  /** The tables and the tally after ending the listed auctions in turn; one that fails leaves its error
     and is skipped. */
  function EndAll(db: Db, turns: seq<EndTurn>): (Db, Tally) {
    if turns == [] then (db, Tally(0, 0, [])) else
    var n := |turns| - 1;
    var (d, t) := EndAll(db, turns[..n]);
    var (d', answer) := EndCall(d, turns[n].id, turns[n].clock, turns[n].commit);
    (d', Tallied(t, answer))
  }

  class Runner {
    const store: LifecycleRepository

    constructor (store: LifecycleRepository)
      ensures this.store == store
    {
      this.store := store;
    }

    /** One cycle over the rows locked for starting and the auctions listed as due; None if the listing fails. */
    method ProcessOnce(candidates: seq<int>, startClock: int, startCommit: CommitOutcome, due: Option<seq<EndTurn>>)
      returns (cycle: CycleResult, errors: seq<Error>)
      modifies store.db
      ensures match Settle(old(store.db.State()), StartTx(old(store.db.State()), candidates, startClock), startCommit)
              case (d, Faulted(e)) => store.db.State() == d && errors == [e] && cycle == CycleResult(0, 0, 0)
              case (d, Reported(n)) =>
                && cycle.started == n
                && (store.db.State(), Tally(cycle.ended, cycle.orders, errors))
                   == if due.Some? then EndAll(d, due.value) else (d, Tally(0, 0, [Error.Storage]))
    {
      hide StartTx, EndTx, EndCall, Settle;
      errors := [];
      cycle := CycleResult(0, 0, 0);
      var started := store.StartDue(candidates, startClock, startCommit);
      if started.Faulted? {
        errors := [started.error];
        return;
      }
      cycle := cycle.(started := started.value);
      if due.None? {
        errors := [Error.Storage];
        return;
      }
      ghost var begun := store.db.State();
      var i := 0;
      while i < |due.value|
        invariant 0 <= i <= |due.value|
        invariant cycle.started == started.value
        invariant (store.db.State(), Tally(cycle.ended, cycle.orders, errors)) == EndAll(begun, due.value[..i])
      {
        var turn := due.value[i];
        assert due.value[..i + 1][..i] == due.value[..i];
        var result := store.EndOne(turn.id, turn.clock, turn.commit);
        match result {
          case Faulted(e) => errors := errors + [e];
          case Reported(r) =>
            if r.ended {
              cycle := cycle.(ended := cycle.ended + 1);
            }
            if r.orderId.Some? {
              cycle := cycle.(orders := cycle.orders + 1);
            }
        }
        i := i + 1;
      }
      assert due.value[..|due.value|] == due.value;
    }
  }
}
