/** Whole runs of the server: any number of bid calls interleaved with the worker and the sellers.
    The unlocked reads, the lock and the transaction of a call are separate steps, the lock may answer
    anything, every application clock is arbitrary, and a commit may be lost, applied or not; where nothing
    depends on the report, a lost commit is the action or no action. Only the database clock runs forward. An
    action that is not enabled changes nothing. */
module BidCalls {
  import opened AuctionTypes
  import opened BidRules
  import opened Tables
  import opened AuctionInvariant
  import opened TransactionSafety

  datatype Phase = Arrived | Unsettled | Admitted | Holding | Done(reply: Reply)

  datatype Call = Call(req: Request, phase: Phase)

  datatype Sys = Sys(db: Db, clock: int, calls: map<nat, Call>)

  datatype Action =
    | Tick(to: int)
    | Create(id: int, sellerId: int, terms: Terms, now: int)
    | Update(id: int, sellerId: int, terms: Terms, now: int)
    | Cancel(id: int, sellerId: int)
    | StartDue(ids: seq<int>)
    | EndOne(id: int, commit: CommitOutcome)
    | Arrive(call: nat, req: Request)
    | ReadKey(call: nat)
    | ReadAuction(call: nat, now: int)
    | TakeLock(call: nat, lock: LockAnswer)
    | RunTx(call: nat, now: int, commit: CommitOutcome)

  function Result<T>(db: Db, tx: Tx<T>): Db {
    match tx
    case Commit(d, _) => d
    case Abort(_) => db
  }

  predicate At(s: Sys, c: nat, p: Phase) {
    c in s.calls && s.calls[c].phase == p
  }

  function Move(s: Sys, c: nat, settled: Option<Reply>, next: Phase): Sys
    requires c in s.calls
  {
    s.(calls := s.calls[c := s.calls[c].(phase := if settled.Some? then Done(settled.value) else next)])
  }

  function Next(s: Sys, act: Action): Sys {
    match act
    case Tick(to) => if s.clock <= to then s.(clock := to) else s
    case Create(id, sellerId, terms, now) => s.(db := Result(s.db, CreateTx(s.db, id, sellerId, terms, now)))
    case Update(id, sellerId, terms, now) => s.(db := Result(s.db, UpdateTx(s.db, id, sellerId, terms, now, s.clock)))
    case Cancel(id, sellerId) => s.(db := Result(s.db, CancelTx(s.db, id, sellerId)))
    case StartDue(ids) => s.(db := Result(s.db, StartTx(s.db, ids, s.clock)))
    case EndOne(id, commit) => s.(db := EndCall(s.db, id, s.clock, commit).0)
    case Arrive(c, req) =>
      if c in s.calls then s
      else s.(calls := s.calls[c := Call(req, if BadRequest(req) then Done(Refused(InvalidParam)) else Arrived)])
    case ReadKey(c) =>
      if !At(s, c, Arrived) then s
      else Move(s, c, FromRecord(Lookup(s.db.keys, KeyOf(s.calls[c].req)), s.calls[c].req), Unsettled)
    case ReadAuction(c, now) =>
      if !At(s, c, Unsettled) then s
      else Move(s, c, OnSnapshot(Lookup(s.db.auctions, s.calls[c].req.auctionId), s.calls[c].req, now), Admitted)
    case TakeLock(c, lock) => if !At(s, c, Admitted) then s else Move(s, c, OnLock(lock), Holding)
    case RunTx(c, now, commit) =>
      if !At(s, c, Holding) then s else
      var after := AfterTx(s.db, s.calls[c].req, now, s.clock, commit);
      Move(s, c, Some(after.1), Holding).(db := after.0)
  }

  function Exec(s: Sys, acts: seq<Action>): Sys
    decreases |acts|
  {
    if acts == [] then s else Exec(Next(s, acts[0]), acts[1..])
  }

  function Boot(clock: int): Sys {
    Sys(EMPTY, clock, map[])
  }

  /** The answer that a successful call was given is on record, with the bid it answers. */
  predicate OnRecord(db: Db, req: Request, r: BidResult) {
    && KeyOf(req) in db.keys
    && db.keys[KeyOf(req)].response == Some(r)
    && r.bid in db.bids
    && r.bid.amount == req.amount
    && BidKey(r.bid) == KeyOf(req)
  }

  ghost predicate CallsOk(s: Sys) {
    forall c | c in s.calls && s.calls[c].phase.Done? && s.calls[c].phase.reply.Accepted? ::
      OnRecord(s.db, s.calls[c].req, s.calls[c].phase.reply.result)
  }

  ghost predicate Inv(s: Sys) {
    DbInv(s.db) && CallsOk(s)
  }

  lemma CommitRecorded(db: Db, req: Request, now: int, dbNow: int)
    requires DbInv(db) && PlaceTx(db, req, now, dbNow).Commit?
    ensures OnRecord(PlaceTx(db, req, now, dbNow).db, req, PlaceTx(db, req, now, dbNow).value)
  {
    hide SliceInv, NoHoles, AcceptTx, Validate, PlaceEvents, PlanOf;
    if KeyOf(req) in db.keys {
      KnownKey(db, req);
    } else {
      AcceptWrites(db, req, now, dbNow);
    }
  }

  lemma AfterKeeps(db: Db, req: Request, now: int, dbNow: int, commit: CommitOutcome)
    requires DbInv(db)
    ensures var (d, reply) := AfterTx(db, req, now, dbNow, commit);
            && DbInv(d) && Grows(db, d)
            && (reply.Accepted? ==> OnRecord(d, req, reply.result))
            && (reply.Refused? && commit == Committed ==> d == db && reply.error != Error.Storage)
  {
    hide DbInv, Grows, PlaceTx, OnRecord;
    GrowsReflexive(db);
    if PlaceTx(db, req, now, dbNow).Commit? {
      PlaceKeeps(db, req, now, dbNow);
      CommitRecorded(db, req, now, dbNow);
    } else {
      PlaceErrors(db, req, now, dbNow);
    }
  }

  lemma PlaceErrors(db: Db, req: Request, now: int, dbNow: int)
    requires DbInv(db) && PlaceTx(db, req, now, dbNow).Abort?
    ensures PlaceTx(db, req, now, dbNow).error != Error.Storage
  {
    hide SliceInv, NoHoles, AcceptTx;
    if KeyOf(req) in db.keys {
      KnownKey(db, req);
    } else {
      NewKey(db, req, now, dbNow);
    }
  }

  lemma NextDb(s: Sys, act: Action)
    requires DbInv(s.db)
    ensures DbInv(Next(s, act).db) && Grows(s.db, Next(s, act).db) && s.clock <= Next(s, act).clock
  {
    hide DbInv, Grows, CreateTx, UpdateTx, CancelTx, StartTx, EndTx, AfterTx, FromRecord, OnSnapshot, BadRequest;
    GrowsReflexive(s.db);
    match act
    case Create(id, sellerId, terms, now) =>
      if CreateTx(s.db, id, sellerId, terms, now).Commit? { CreateKeeps(s.db, id, sellerId, terms, now); }
    case Update(id, sellerId, terms, now) =>
      if UpdateTx(s.db, id, sellerId, terms, now, s.clock).Commit? {
        UpdateKeeps(s.db, id, sellerId, terms, now, s.clock);
      }
    case Cancel(id, sellerId) => CancelKeeps(s.db, id, sellerId);
    case StartDue(ids) => StartKeeps(s.db, ids, s.clock);
    case EndOne(id, commit) => EndKeeps(s.db, id, s.clock);
    case RunTx(c, now, commit) =>
      if At(s, c, Holding) { AfterKeeps(s.db, s.calls[c].req, now, s.clock, commit); }
    case _ =>
  }

  lemma RecordStays(db: Db, d: Db, req: Request, r: BidResult)
    requires Grows(db, d) && OnRecord(db, req, r)
    ensures OnRecord(d, req, r)
  {
    var i :| 0 <= i < |db.bids| && db.bids[i] == r.bid;
    assert d.bids[i] == r.bid;
  }

  lemma NextKeeps(s: Sys, act: Action)
    requires Inv(s)
    ensures Inv(Next(s, act))
  {
    hide DbInv, Grows, OnRecord, CreateTx, UpdateTx, CancelTx, StartTx, EndTx, AfterTx, OnSnapshot, BadRequest;
    NextDb(s, act);
    var s' := Next(s, act);
    forall c | c in s'.calls && s'.calls[c].phase.Done? && s'.calls[c].phase.reply.Accepted?
      ensures OnRecord(s'.db, s'.calls[c].req, s'.calls[c].phase.reply.result)
    {
      if c in s.calls && s.calls[c].phase.Done? {
        RecordStays(s.db, s'.db, s.calls[c].req, s.calls[c].phase.reply.result);
      } else {
        NewAnswer(s, act, c);
      }
    }
  }

  /** A call that succeeds does so by reading its record or by its own committed transaction. */
  lemma NewAnswer(s: Sys, act: Action, c: nat)
    requires Inv(s) && c in Next(s, act).calls && (c in s.calls ==> !s.calls[c].phase.Done?)
    requires Next(s, act).calls[c].phase.Done? && Next(s, act).calls[c].phase.reply.Accepted?
    ensures OnRecord(Next(s, act).db, Next(s, act).calls[c].req, Next(s, act).calls[c].phase.reply.result)
  {
    hide SliceInv, NoHoles, CreateTx, UpdateTx, CancelTx, StartTx, EndTx, AfterTx, BadRequest;
    if act.ReadKey? {
      KnownKey(s.db, s.calls[c].req);
    } else if act.RunTx? {
      AfterKeeps(s.db, s.calls[c].req, act.now, s.clock, act.commit);
    }
  }

  /** Every reachable state satisfies the invariant, and the tables only grow along the way. */
  lemma {:induction false} RunKeeps(s: Sys, acts: seq<Action>)
    requires Inv(s)
    ensures Inv(Exec(s, acts)) && Grows(s.db, Exec(s, acts).db) && s.clock <= Exec(s, acts).clock
    decreases |acts|
  {
    hide DbInv, Grows, CallsOk, Next;
    if acts == [] {
      GrowsReflexive(s.db);
    } else {
      NextKeeps(s, acts[0]);
      NextDb(s, acts[0]);
      RunKeeps(Next(s, acts[0]), acts[1..]);
      GrowsTransitive(s.db, Next(s, acts[0]).db, Exec(s, acts).db);
    }
  }

  lemma Reachable(clock: int, acts: seq<Action>)
    ensures Inv(Exec(Boot(clock), acts))
  {
    assert Inv(Boot(clock));
    RunKeeps(Boot(clock), acts);
  }

  /** A call whose four steps find the tables at four moments, with anything in between, ends as the service's `Place`
      does on what they find: it stops at the first step that settles it, and otherwise runs its
      transaction on the last. */
  lemma CallIsPlace(s: Sys, c: nat, d: Db, e: Db, f: Db, preNow: int, lock: LockAnswer, now: int, commit: CommitOutcome)
    requires c in s.calls
    requires s.calls[c].phase == if BadRequest(s.calls[c].req) then Done(Refused(InvalidParam)) else Arrived
    ensures var req := s.calls[c].req;
            var s1 := Next(s, ReadKey(c)).(db := d);
            var s2 := Next(s1, ReadAuction(c, preNow)).(db := e);
            var s3 := Next(s2, TakeLock(c, lock)).(db := f);
            var s4 := Next(s3, RunTx(c, now, commit));
            var record, snapshot := Lookup(s.db.keys, KeyOf(req)), Lookup(d.auctions, req.auctionId);
            c in s4.calls &&
            match BeforeTx(req, record, snapshot, preNow, lock)
            case Some(early) => s4.db == f && s4.calls[c].phase == Done(early)
            case None => (s4.db, s4.calls[c].phase) == (AfterTx(f, req, now, s.clock, commit).0,
                                                        Done(AfterTx(f, req, now, s.clock, commit).1))
  {
    hide BadRequest, FromRecord, OnSnapshot, AfterTx;
  }
}
