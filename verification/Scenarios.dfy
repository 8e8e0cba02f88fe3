/** Runs that reach the states which the other modules rule out by hypothesis. */
module Scenarios {
  import opened AuctionTypes
  import opened BidRules
  import opened Tables
  import opened AuctionInvariant
  import Server = BidCalls
  import opened ClientStore
  import Replay
  import opened LiveClient

  const CONFIG := Config(7, 10, 5, Some(100), SECOND, 61 * SECOND, 30, 30)
  const PENDING := Auction(CONFIG, Pending, 10, None, 0, 61 * SECOND, 0)
  const LIVE := PENDING.(status := Active, version := 1)
  const CREATE := Server.Create(1, 7, Terms(Some(10), Some(5), Some(100), Some(SECOND), Some(60), None, None), 0)

  /** Forty seconds in, a bid falls within the threshold and extends. */
  const LATE := 40 * SECOND

  function BidOf(amount: int): Request {
    Request(1, 5, amount, "k")
  }

  const CREATED := Server.Sys(EMPTY.(auctions := map[1 := PENDING]), 0, map[])
  const STARTED := Server.Sys(EMPTY.(auctions := map[1 := LIVE], outbox := map[(1, 1) := StartEvent(1, PENDING)]),
                                SECOND, map[])

  /** What the server does up to the moment before call 0 runs its transaction. */
  function Opening(amount: int): seq<Server.Action> {
    [Server.Tick(SECOND), Server.StartDue([1]), Server.Arrive(0, BidOf(amount)), Server.ReadKey(0),
     Server.ReadAuction(0, LATE), Server.TakeLock(0, Acquired)]
  }

  lemma ServerCons(s: Server.Sys, act: Server.Action, rest: seq<Server.Action>)
    ensures Server.Exec(s, [act] + rest) == Server.Exec(Server.Next(s, act), rest)
  {
    assert ([act] + rest)[1..] == rest;
  }

  lemma Creates()
    ensures Server.Next(Server.Boot(0), CREATE) == CREATED
  {
    assert EMPTY.auctions[1 := PENDING] == map[1 := PENDING];
  }

  lemma Starts()
    ensures Server.Next(Server.Next(CREATED, Server.Tick(SECOND)), Server.StartDue([1])) == STARTED
  {
    var s := Server.Next(CREATED, Server.Tick(SECOND));
    assert [1][..0] == [] && StartTx(s.db, [], SECOND) == Commit(s.db, 0);
    InsertOne(s.db.outbox, 1, StartEvent(1, PENDING));
    assert s.db.auctions[1 := LIVE] == map[1 := LIVE];
    assert s.db.outbox[(1, 1) := StartEvent(1, PENDING)] == map[(1, 1) := StartEvent(1, PENDING)];
  }

  lemma Admits(amount: int)
    requires 10 <= amount <= 100
    ensures var s1 := Server.Next(STARTED, Server.Arrive(0, BidOf(amount)));
            var s2 := Server.Next(s1, Server.ReadKey(0));
            var s3 := Server.Next(s2, Server.ReadAuction(0, LATE));
            Server.Next(s3, Server.TakeLock(0, Acquired))
            == STARTED.(calls := map[0 := Server.Call(BidOf(amount), Server.Holding)])
  {
    var s1 := Server.Next(STARTED, Server.Arrive(0, BidOf(amount)));
    assert s1 == STARTED.(calls := map[0 := Server.Call(BidOf(amount), Server.Arrived)]);
    var s2 := Server.Next(s1, Server.ReadKey(0));
    assert s2 == STARTED.(calls := map[0 := Server.Call(BidOf(amount), Server.Unsettled)]);
    var s3 := Server.Next(s2, Server.ReadAuction(0, LATE));
    assert s3 == STARTED.(calls := map[0 := Server.Call(BidOf(amount), Server.Admitted)]);
  }

  function Admitted(amount: int): Server.Sys {
    STARTED.(calls := map[0 := Server.Call(BidOf(amount), Server.Holding)])
  }

  lemma {:induction false} ServerConcat(s: Server.Sys, xs: seq<Server.Action>, ys: seq<Server.Action>)
    ensures Server.Exec(s, xs + ys) == Server.Exec(Server.Exec(s, xs), ys)
    decreases |xs|
  {
    hide Server.Next;
    if xs == [] {
      assert xs + ys == ys;
    } else {
      assert (xs + ys)[1..] == xs[1..] + ys;
      ServerConcat(Server.Next(s, xs[0]), xs[1..], ys);
    }
  }

  /** Three steps of a run. */
  lemma ServerThree(s: Server.Sys, x: Server.Action, y: Server.Action, z: Server.Action)
    ensures Server.Exec(s, [x, y, z]) == Server.Next(Server.Next(Server.Next(s, x), y), z)
  {
    hide Server.Next;
    assert [x, y, z] == [x] + [y, z] && [y, z] == [y] + [z] && [z] == [z] + [];
    ServerCons(s, x, [y, z]);
    ServerCons(Server.Next(s, x), y, [z]);
    ServerCons(Server.Next(Server.Next(s, x), y), z, []);
  }

  lemma Opens(amount: int)
    requires 10 <= amount <= 100
    ensures Server.Exec(CREATED, Opening(amount)) == Admitted(amount)
  {
    hide Server.Next;
    var acts := Opening(amount);
    assert acts == [acts[0], acts[1], acts[2]] + [acts[3], acts[4], acts[5]];
    ServerConcat(CREATED, [acts[0], acts[1], acts[2]], [acts[3], acts[4], acts[5]]);
    ServerThree(CREATED, acts[0], acts[1], acts[2]);
    Starts();
    ServerThree(Server.Next(STARTED, acts[2]), acts[3], acts[4], acts[5]);
    Admits(amount);
  }

  const BID := Server.RunTx(0, LATE, Committed)

  /** The bid commits, with its extension: two events at once. */
  lemma Bids(amount: int)
    requires 10 <= amount <= 100
    ensures var db := Server.Next(Admitted(amount), BID).db;
            && KeyOf(BidOf(amount)) in db.keys
            && 1 in db.auctions && db.auctions[1].version == 3
            && db.auctions[1].status == (if amount == 100 then Ended else Active)
  {
  }

  // ---- worlds ----

  function Serves(acts: seq<Server.Action>): seq<Action> {
    seq(|acts|, i requires 0 <= i < |acts| => Serve(acts[i]))
  }

  lemma {:induction false} ServesExec(w: World, acts: seq<Server.Action>)
    ensures Exec(w, Serves(acts)) == w.(sys := Server.Exec(w.sys, acts))
    decreases |acts|
  {
    hide Server.Next;
    if acts != [] {
      assert Serves(acts)[1..] == Serves(acts[1..]);
      ServesExec(Next(w, Serve(acts[0])), acts[1..]);
    }
  }

  lemma {:induction false} ExecConcat(w: World, xs: seq<Action>, ys: seq<Action>)
    ensures Exec(w, xs + ys) == Exec(Exec(w, xs), ys)
    decreases |xs|
  {
    hide Next;
    if xs == [] {
      assert xs + ys == ys;
    } else {
      assert (xs + ys)[1..] == xs[1..] + ys;
      ExecConcat(Next(w, xs[0]), xs[1..], ys);
    }
  }

  lemma OneMore(w: World, acts: seq<Action>, act: Action)
    ensures Exec(w, acts + [act]) == Next(Exec(w, acts), act)
  {
    hide Next;
    ExecConcat(w, acts, [act]);
    assert Exec(Exec(w, acts), [act]) == Exec(Next(Exec(w, acts), act), []);
  }

  /** A run in which no status answer arrives trusts none. */
  lemma {:induction false} NothingToTrust(w: World, acts: seq<Action>)
    requires forall i | 0 <= i < |acts| :: !acts[i].ArriveStatus?
    ensures TrustedRun(w, acts)
    decreases |acts|
  {
    hide Next;
    if acts != [] {
      NothingToTrust(Next(w, acts[0]), acts[1..]);
    }
  }

  lemma Reached(acts: seq<Action>)
    requires forall i | 0 <= i < |acts| :: !acts[i].ArriveStatus?
    ensures LiveClient.Inv(Exec(Boot(0, 1), acts)) && Exec(Boot(0, 1), acts).id == 1
  {
    hide LiveClient.Inv, Next;
    Booted(0, 1);
    NothingToTrust(Boot(0, 1), acts);
    RunKeeps(Boot(0, 1), acts);
    SameAuction(Boot(0, 1), acts);
  }

  const START := [Serve(CREATE)] + Serves(Opening(10))

  lemma Started()
    ensures Exec(Boot(0, 1), START) == World(Admitted(10), 1, Boot(0, 1).client)
  {
    hide Server.Next, Opening, Admitted, Server.Boot;
    ExecConcat(Boot(0, 1), [Serve(CREATE)], Serves(Opening(10)));
    OneMore(Boot(0, 1), [], Serve(CREATE));
    assert [] + [Serve(CREATE)] == [Serve(CREATE)];
    Creates();
    ServesExec(Next(Boot(0, 1), Serve(CREATE)), Opening(10));
    Opens(10);
  }

  lemma LogOfBid(sys: Server.Sys)
    requires Server.Inv(sys) && 1 in sys.db.auctions && sys.db.auctions[1].version == 3
    ensures WellNumbered(LogIn(sys, 1)) && |LogIn(sys, 1)| == 3
  {
    RowTellsTheLog(sys, 1);
  }

  /** A status request whose two reads enclose a bid. */
  lemma TornIsReachable() returns (acts: seq<Action>)
    ensures TrustedRun(Boot(0, 1), acts)
    ensures var w := Exec(Boot(0, 1), acts);
            && 0 in w.client.tasks && w.client.tasks[0] == LiveClient.Answered(None, LIVE, 3)
            && |LogIn(w.sys, 1)| == 3
            && InSync(w.client.store, LogIn(w.sys, 1))
            && !InSync(Next(w, ArriveStatus(0)).client.store, LogIn(w.sys, 1))
  {
    hide Admitted, Server.Next, WellNumbered, InSync, ClientStore.ApplySnapshot, Server.Inv;
    Started();
    var w0 := World(Admitted(10), 1, Boot(0, 1).client);
    var tail := [Poll(0), ReadRow(0), Serve(BID), ReadSeq(0)];
    acts := START + tail;
    ExecConcat(Boot(0, 1), START, tail);
    FourSteps(w0, tail);
    Row(10);
    Bids(10);
    var w := Exec(Boot(0, 1), acts);
    NothingToTrust(Boot(0, 1), acts);
    Reached(acts);
    LogOfBid(w.sys);
    StatusInStep(w.client, 0, LogIn(w.sys, 1));
  }

  lemma Row(amount: int)
    ensures Admitted(amount).db.auctions == map[1 := LIVE]
  {
  }

  lemma FourSteps(w: World, acts: seq<Action>)
    requires |acts| == 4
    ensures Exec(w, acts) == Next(Next(Next(Next(w, acts[0]), acts[1]), acts[2]), acts[3])
  {
    hide Next;
    assert acts == ((([] + [acts[0]]) + [acts[1]]) + [acts[2]]) + [acts[3]];
    OneMore(w, [], acts[0]);
    OneMore(w, [] + [acts[0]], acts[1]);
    OneMore(w, [] + [acts[0]] + [acts[1]], acts[2]);
    OneMore(w, [] + [acts[0]] + [acts[1]] + [acts[2]], acts[3]);
  }

  /** A status answer from before the start arrives after a page for the bid was asked for. */
  lemma StaleIsReachable() returns (acts: seq<Action>)
    ensures TrustedRun(Boot(0, 1), acts)
    ensures var w := Exec(Boot(0, 1), acts);
            && w.client.gaps == 0 && w.client.store.lastSeq == 1
            && 0 in w.client.tasks && w.client.tasks[0] == LiveClient.Answered(None, PENDING, 0)
            && Next(Next(w, ArriveStatus(0)), ArrivePage(2)).client.gaps == 1
  {
    hide Admitted, Server.Next, WellNumbered, InSync, ClientStore.ApplySnapshot, Server.Inv, Opening;
    var ask := [Serve(CREATE), Poll(0), ReadRow(0), ReadSeq(0)];
    var open := Serves(Opening(10)) + [Serve(BID)];
    var follow := [Deliver(1, 1), Deliver(2, 3), ReadRange(2), ReadRows(2)];
    acts := ask + open + follow;
    var w1 := Exec(Boot(0, 1), ask);
    FourSteps(Boot(0, 1), ask);
    Creates();
    var w2 := Exec(w1, open);
    OneMore(w1, Serves(Opening(10)), Serve(BID));
    ServesExec(w1, Opening(10));
    Opens(10);
    Bids(10);
    ExecConcat(Boot(0, 1), ask, open);
    Reached(ask + open);
    assert w2.client == w1.client;
    StaleFollows(ask + open, w2);
  }

  lemma StaleFollows(before: seq<Action>, w: World)
    requires (forall i | 0 <= i < |before| :: !before[i].ArriveStatus?) && w == Exec(Boot(0, 1), before)
    requires LiveClient.Inv(w) && w.id == 1 && 1 in w.sys.db.auctions && w.sys.db.auctions[1].version == 3
    requires w.client.store == INITIAL && w.client.gaps == 0 && w.client.tasks.Keys == {0} && !w.client.disposed
    requires w.client.tasks[0] == LiveClient.Answered(None, PENDING, 0)
    ensures var acts := before + [Deliver(1, 1), Deliver(2, 3), ReadRange(2), ReadRows(2)];
            var w' := Exec(Boot(0, 1), acts);
            && TrustedRun(Boot(0, 1), acts)
            && w'.client.gaps == 0 && w'.client.store.lastSeq == 1
            && 0 in w'.client.tasks && w'.client.tasks[0] == LiveClient.Answered(None, PENDING, 0)
            && Next(Next(w', ArriveStatus(0)), ArrivePage(2)).client.gaps == 1
  {
    hide LiveClient.Inv, Next, WellNumbered, Boot;
    var follow := [Deliver(1, 1), Deliver(2, 3), ReadRange(2), ReadRows(2)];
    ExecConcat(Boot(0, 1), before, follow);
    Follows(w);
    NothingToTrust(Boot(0, 1), before + follow);
    Reached(before + follow);
    LogOfBidInWorld(w);
    PageAhead(Exec(w, follow));
  }

  lemma LogOfBidInWorld(w: World)
    requires LiveClient.Inv(w) && 1 in w.sys.db.auctions && w.sys.db.auctions[1].version == 3
    ensures WellNumbered(LogIn(w.sys, 1)) && |LogIn(w.sys, 1)| == 3
  {
    LogOfBid(w.sys);
  }

  /** The first event is folded; the third one finds a gap and asks for a page from 1 on. */
  lemma Follows(w: World)
    requires LiveClient.Inv(w) && w.id == 1 && 1 in w.sys.db.auctions && w.sys.db.auctions[1].version == 3
    requires w.client.store == INITIAL && w.client.gaps == 0 && 1 !in w.client.tasks && 2 !in w.client.tasks
    ensures var w' := Exec(w, [Deliver(1, 1), Deliver(2, 3), ReadRange(2), ReadRows(2)]);
            Followed(w.client, w'.client, LogIn(w.sys, 1)) && w' == w.(client := w'.client)
  {
    hide Server.Inv, Replay.Page, ApplyEvent, ClientNext, Followed, WellNumbered;
    var log := LogIn(w.sys, 1);
    LogOfBid(w.sys);
    FourSteps(w, [Deliver(1, 1), Deliver(2, 3), ReadRange(2), ReadRows(2)]);
    FollowSteps(w.client, log, Lookup(w.sys.db.auctions, 1));
  }

  predicate Followed(c: Client, c': Client, log: seq<Event>) {
    && |log| == 3
    && c'.store.lastSeq == 1 && c'.gaps == c.gaps && c'.disposed == c.disposed
    && 2 in c'.tasks && c'.tasks[2] == Paged(1, 0, log[2], Replay.Page(log, log, 1, Replay.DEFAULT_LIMIT))
    && (forall t | t in c.tasks :: t in c'.tasks && c'.tasks[t] == c.tasks[t])
  }

  lemma FollowSteps(c: Client, log: seq<Event>, row: Option<Auction>)
    requires WellNumbered(log) && |log| == 3 && InSync(c.store, log)
    requires c.store == INITIAL && c.gaps == 0 && 1 !in c.tasks && 2 !in c.tasks
    ensures var c1 := ClientNext(c, Deliver(1, 1), log, row);
            var c2 := ClientNext(c1, Deliver(2, 3), log, row);
            var c3 := ClientNext(c2, ReadRange(2), log, row);
            Followed(c, ClientNext(c3, ReadRows(2), log, row), log)
  {
    hide Replay.Page, ApplyEvent, InSync;
    NextEventInSync(c.store, log);
    var c1 := ClientNext(c, Deliver(1, 1), log, row);
    assert c1.store.lastSeq == 1 && c1.tasks == c.tasks && c1.gaps == 0 && c1.disposed == c.disposed;
    var c2 := ClientNext(c1, Deliver(2, 3), log, row);
    assert c2 == c1.(tasks := c1.tasks[2 := Paging(1, 0, log[2])]);
  }

  lemma PageAhead(w: World)
    requires LiveClient.Inv(w) && w.id == 1 && !w.client.disposed
    requires WellNumbered(LogIn(w.sys, 1)) && |LogIn(w.sys, 1)| == 3
    requires 0 in w.client.tasks && w.client.tasks[0] == LiveClient.Answered(None, PENDING, 0)
    requires var log := LogIn(w.sys, 1);
             2 in w.client.tasks
             && w.client.tasks[2] == Paged(1, 0, log[2], Replay.Page(log, log, 1, Replay.DEFAULT_LIMIT))
    ensures w.client.gaps == 0 && Next(Next(w, ArriveStatus(0)), ArrivePage(2)).client.gaps == 1
  {
    hide Server.Inv, Replay.Page, ApplyAll, InSync, TaskOk;
    var log := LogIn(w.sys, 1);
    Replay.PageExact(log, log, 1, 1, Replay.DEFAULT_LIMIT);
    StaleStatus(w.client, 0, 2, log);
  }

  // ---- a repeat that is turned away ----

  function Both(phase: Server.Phase): Server.Sys {
    STARTED.(calls := map[1 := Server.Call(BidOf(100), Server.Unsettled), 0 := Server.Call(BidOf(100), phase)])
  }

  lemma SecondArrives()
    ensures Server.Exec(STARTED, [Server.Arrive(1, BidOf(100)), Server.ReadKey(1), Server.Arrive(0, BidOf(100))])
            == Both(Server.Arrived)
  {
    ServerThree(STARTED, Server.Arrive(1, BidOf(100)), Server.ReadKey(1), Server.Arrive(0, BidOf(100)));
    var s1 := Server.Next(STARTED, Server.Arrive(1, BidOf(100)));
    assert s1 == STARTED.(calls := map[1 := Server.Call(BidOf(100), Server.Arrived)]);
    var s2 := Server.Next(s1, Server.ReadKey(1));
    assert s2 == STARTED.(calls := map[1 := Server.Call(BidOf(100), Server.Unsettled)]);
    assert Server.Next(s2, Server.Arrive(0, BidOf(100))).calls == Both(Server.Arrived).calls;
  }

  lemma FirstHolds()
    ensures Server.Exec(Both(Server.Arrived), [Server.ReadKey(0), Server.ReadAuction(0, LATE),
                                               Server.TakeLock(0, Acquired)])
            == Both(Server.Holding)
  {
    ServerThree(Both(Server.Arrived), Server.ReadKey(0), Server.ReadAuction(0, LATE), Server.TakeLock(0, Acquired));
    assert Server.Next(Both(Server.Arrived), Server.ReadKey(0)) == Both(Server.Unsettled);
    assert Server.Next(Both(Server.Unsettled), Server.ReadAuction(0, LATE)) == Both(Server.Admitted);
    assert Server.Next(Both(Server.Admitted), Server.TakeLock(0, Acquired)) == Both(Server.Holding);
  }

  lemma SecondRefused()
    ensures var s := Server.Next(Server.Next(Both(Server.Holding), BID), Server.ReadAuction(1, LATE));
            && KeyOf(BidOf(100)) in s.db.keys && 1 in s.calls
            && s.calls[1] == Server.Call(BidOf(100), Server.Done(Refused(AlreadyEnded)))
  {
    hide AfterTx;
    Bids(100);
    var s := Server.Next(Both(Server.Holding), BID);
    assert s.db == Server.Next(Admitted(100), BID).db;
    assert s.calls[1] == Server.Call(BidOf(100), Server.Unsettled);
  }

  /** Two calls with one key arrive together; the first ends the auction with its bid, and the second, past its look at
      the record, is refused because the auction has ended. */
  lemma RepeatIsTurnedAway() returns (acts: seq<Server.Action>)
    ensures var s := Server.Exec(Server.Boot(0), acts);
            && KeyOf(BidOf(100)) in s.db.keys && 1 in s.calls
            && s.calls[1] == Server.Call(BidOf(100), Server.Done(Refused(AlreadyEnded)))
  {
    hide Server.Next, Both, Server.Boot;
    var xs := [CREATE, Server.Tick(SECOND), Server.StartDue([1])];
    var ys := [Server.Arrive(1, BidOf(100)), Server.ReadKey(1), Server.Arrive(0, BidOf(100))];
    var zs := [Server.ReadKey(0), Server.ReadAuction(0, LATE), Server.TakeLock(0, Acquired)];
    var end := [BID, Server.ReadAuction(1, LATE)];
    acts := xs + (ys + (zs + end));
    ServerConcat(Server.Boot(0), xs, ys + (zs + end));
    ServerThree(Server.Boot(0), CREATE, Server.Tick(SECOND), Server.StartDue([1]));
    Creates();
    Starts();
    ServerConcat(STARTED, ys, zs + end);
    SecondArrives();
    ServerConcat(Both(Server.Arrived), zs, end);
    FirstHolds();
    assert end == [BID] + [Server.ReadAuction(1, LATE)] && end[1..] == [Server.ReadAuction(1, LATE)] + [];
    ServerCons(Both(Server.Holding), BID, [Server.ReadAuction(1, LATE)]);
    ServerCons(Server.Next(Both(Server.Holding), BID), Server.ReadAuction(1, LATE), []);
    SecondRefused();
  }
}
