/** The server feeds the publishers: what its transactions add to the outbox is what the publishers' machine appends. */
module OutboxFeed {
  import opened AuctionTypes
  import opened Tables
  import opened AuctionInvariant
  import opened TransactionSafety
  import Server = BidCalls
  import opened OutboxPublisher

  /** The events that the rows of the publishers stand for. */
  function Numbers(rows: seq<Row>): set<(int, int)> {
    set i | 0 <= i < |rows| :: (rows[i].auctionId, rows[i].eventSeq)
  }

  lemma InNumbers(rows: seq<Row>, i: nat)
    requires i < |rows|
    ensures (rows[i].auctionId, rows[i].eventSeq) in Numbers(rows)
  {
  }

  /** Numbers only ever go up: a server step adds to an auction nothing below what it had. */
  lemma NumbersRise(s: Server.Sys, act: Server.Action, k: (int, int), m: int)
    requires Server.Inv(s) && k in Server.Next(s, act).db.outbox && k !in s.db.outbox && (k.0, m) in s.db.outbox
    ensures m < k.1
  {
    hide SliceInv, KeysOk, NoHoles, Server.CallsOk, Evolves, LogOf, Server.Next;
    Server.NextDb(s, act);
    var d := Server.Next(s, act).db;
    Numbered(s.db, k.0, m);
    Numbered(s.db, k.0, k.1);
    Numbered(d, k.0, k.1);
  }

  lemma Numbered(db: Db, id: int, n: int)
    requires NoHoles(db)
    ensures (id, n) in db.outbox <==> id in db.auctions && 1 <= n <= db.auctions[id].version
  {
  }

  lemma {:induction false} Least(todo: set<(int, int)>) returns (k: (int, int))
    requires todo != {}
    ensures k in todo && forall j | j in todo :: k.1 <= j.1
    decreases |todo|
  {
    var j :| j in todo;
    if todo == {j} {
      k := j;
    } else {
      k := Least(todo - {j});
      if j.1 < k.1 {
        k := j;
      }
    }
  }

  predicate Above(todo: set<(int, int)>, rows: seq<Row>) {
    forall k, i | k in todo && 0 <= i < |rows| && rows[i].auctionId == k.0 :: rows[i].eventSeq < k.1
  }

  predicate Appends(acts: seq<Action>) {
    forall i | 0 <= i < |acts| :: acts[i].Append?
  }

  /** New numbers can all be appended, smallest first. */
  lemma {:induction false} AppendAll(s: Sys, p: Params, todo: set<(int, int)>) returns (acts: seq<Action>)
    requires Above(todo, s.rows)
    ensures Appends(acts)
    ensures Numbers(Exec(s, p, acts).rows) == Numbers(s.rows) + todo && s.rows <= Exec(s, p, acts).rows
    decreases |todo|
  {
    hide Above, Numbers, Next;
    acts := [];
    if todo != {} {
      var k := Least(todo);
      var s' := Next(s, p, Append(k.0, k.1));
      AppendOne(s, p, todo, k);
      var rest := AppendAll(s', p, todo - {k});
      acts := [Append(k.0, k.1)] + rest;
      assert acts[1..] == rest;
      assert Numbers(s.rows) + todo == Numbers(s'.rows) + (todo - {k});
    }
  }

  lemma AppendOne(s: Sys, p: Params, todo: set<(int, int)>, k: (int, int))
    requires Above(todo, s.rows) && k in todo && forall j | j in todo :: k.1 <= j.1
    ensures var s' := Next(s, p, Append(k.0, k.1));
            Above(todo - {k}, s'.rows) && Numbers(s'.rows) == Numbers(s.rows) + {k} && s.rows <= s'.rows
  {
    var r := Row(k.0, k.1, Waiting, 0, s.clock, s.clock);
    assert k == (k.0, k.1);
    assert Next(s, p, Append(k.0, k.1)).rows == s.rows + [r];
    NumbersSnoc(s.rows, r);
    forall j | j in todo - {k} && j.0 == k.0
      ensures k.1 < j.1
    {
      assert j == (j.0, j.1);
    }
  }

  lemma NumbersSnoc(rows: seq<Row>, r: Row)
    ensures Numbers(rows + [r]) == Numbers(rows) + {(r.auctionId, r.eventSeq)}
  {
    forall k
      ensures k in Numbers(rows + [r]) <==> k in Numbers(rows) + {(r.auctionId, r.eventSeq)}
    {
      if k in Numbers(rows) {
        var i :| 0 <= i < |rows| && k == (rows[i].auctionId, rows[i].eventSeq);
        assert (rows + [r])[i] == rows[i];
      }
      assert (rows + [r])[|rows|] == r;
    }
  }

  /** Each server step is matched by appends of exactly the events it added. */
  lemma ServerFeeds(s: Server.Sys, act: Server.Action, ps: Sys, p: Params) returns (feed: seq<Action>)
    requires Server.Inv(s) && Numbers(ps.rows) == s.db.outbox.Keys
    ensures Appends(feed)
    ensures Numbers(Exec(ps, p, feed).rows) == Server.Next(s, act).db.outbox.Keys
  {
    hide Server.Inv, Server.Next, Numbers;
    var todo := Server.Next(s, act).db.outbox.Keys - s.db.outbox.Keys;
    forall k, i | k in todo && 0 <= i < |ps.rows| && ps.rows[i].auctionId == k.0
      ensures ps.rows[i].eventSeq < k.1
    {
      InNumbers(ps.rows, i);
      NumbersRise(s, act, k, ps.rows[i].eventSeq);
    }
    feed := AppendAll(ps, p, todo);
    OutboxStays(s, act);
  }

  lemma OutboxStays(s: Server.Sys, act: Server.Action)
    requires Server.Inv(s)
    ensures s.db.outbox.Keys <= Server.Next(s, act).db.outbox.Keys
  {
    hide SliceInv, KeysOk, NoHoles, Server.CallsOk, LogOf, Server.Next;
    Server.NextDb(s, act);
    forall k | k in s.db.outbox
      ensures k in Server.Next(s, act).db.outbox
    {
      Numbered(s.db, k.0, k.1);
      Numbered(Server.Next(s, act).db, k.0, k.1);
    }
  }

  /** What a publisher does adds no event and removes none. */
  lemma PublisherLeaves(s: Sys, p: Params, act: Action)
    requires !act.Append?
    ensures Numbers(Next(s, p, act).rows) == Numbers(s.rows)
  {
    var s' := Next(s, p, act);
    assert |s'.rows| == |s.rows|;
    assert forall i | 0 <= i < |s.rows| ::
      (s'.rows[i].auctionId, s'.rows[i].eventSeq) == (s.rows[i].auctionId, s.rows[i].eventSeq);
    forall i | 0 <= i < |s.rows|
      ensures (s.rows[i].auctionId, s.rows[i].eventSeq) in Numbers(s'.rows)
      ensures (s'.rows[i].auctionId, s'.rows[i].eventSeq) in Numbers(s.rows)
    {
      InNumbers(s.rows, i);
      InNumbers(s'.rows, i);
    }
  }

  // ---- server and publishers together ----

  datatype Step = Serve(served: Server.Action) | Publishing(own: Action)

  function After(s: Server.Sys, step: Step): Server.Sys {
    match step
    case Serve(act) => Server.Next(s, act)
    case Publishing(_) => s
  }

  function ServerAfter(s: Server.Sys, steps: seq<Step>): Server.Sys
    decreases |steps|
  {
    if steps == [] then s else ServerAfter(After(s, steps[0]), steps[1..])
  }

  function Flat(chunks: seq<seq<Action>>): seq<Action> {
    if chunks == [] then [] else chunks[0] + Flat(chunks[1..])
  }

  /** What the publishers' machine does in one step: their own action, or appends while the server acts. */
  predicate Matches(step: Step, chunk: seq<Action>) {
    match step
    case Serve(_) => Appends(chunk)
    case Publishing(act) => chunk == [act] && !act.Append?
  }

  /** Step by step, the publishers' rows are the server's outbox. */
  predicate Follows(s: Server.Sys, ps: Sys, p: Params, steps: seq<Step>, chunks: seq<seq<Action>>)
    decreases |steps|
  {
    && Numbers(ps.rows) == s.db.outbox.Keys
    && |chunks| == |steps|
    && (steps != [] ==>
         && Matches(steps[0], chunks[0])
         && Follows(After(s, steps[0]), Exec(ps, p, chunks[0]), p, steps[1..], chunks[1..]))
  }

  /** Whatever the server and the publishers do, in any order, the publishers' machine can follow. */
  lemma {:induction false} PublishersFollow(s: Server.Sys, ps: Sys, p: Params, steps: seq<Step>)
    returns (chunks: seq<seq<Action>>)
    requires Server.Inv(s) && Numbers(ps.rows) == s.db.outbox.Keys
    requires forall i | 0 <= i < |steps| && steps[i].Publishing? :: !steps[i].own.Append?
    ensures Follows(s, ps, p, steps, chunks)
    decreases |steps|
  {
    hide Server.Inv, Server.Next, Next, Numbers;
    chunks := [];
    if steps != [] {
      var chunk := [];
      match steps[0] {
        case Serve(act) =>
          chunk := ServerFeeds(s, act, ps, p);
          Server.NextKeeps(s, act);
        case Publishing(act) =>
          chunk := [act];
          PublisherLeaves(ps, p, act);
          assert Exec(ps, p, [act]) == Exec(Next(ps, p, act), p, []);
      }
      var rest := PublishersFollow(After(s, steps[0]), Exec(ps, p, chunk), p, steps[1..]);
      chunks := [chunk] + rest;
      assert chunks[1..] == rest;
    }
  }

  lemma {:induction false} ExecConcat(s: Sys, p: Params, xs: seq<Action>, ys: seq<Action>)
    ensures Exec(s, p, xs + ys) == Exec(Exec(s, p, xs), p, ys)
    decreases |xs|
  {
    hide Next;
    if xs == [] {
      assert xs + ys == ys;
    } else {
      assert (xs + ys)[1..] == xs[1..] + ys;
      ExecConcat(Next(s, p, xs[0]), p, xs[1..], ys);
    }
  }

  /** At every moment of a joint run the rows are the outbox. */
  lemma {:induction false} AtEveryMoment(s: Server.Sys, ps: Sys, p: Params, steps: seq<Step>, chunks: seq<seq<Action>>,
                                         n: nat)
    requires Server.Inv(s) && Follows(s, ps, p, steps, chunks) && n <= |steps|
    ensures Numbers(Exec(ps, p, Flat(chunks[..n])).rows) == ServerAfter(s, steps[..n]).db.outbox.Keys
    ensures Server.Inv(ServerAfter(s, steps[..n]))
    decreases n
  {
    hide Server.Inv, Server.Next, Next, Numbers, Matches;
    if n > 0 {
      if steps[0].Serve? {
        Server.NextKeeps(s, steps[0].served);
      }
      assert steps[..n][1..] == steps[1..][..n - 1] && chunks[..n][1..] == chunks[1..][..n - 1];
      AtEveryMoment(After(s, steps[0]), Exec(ps, p, chunks[0]), p, steps[1..], chunks[1..], n - 1);
      ExecConcat(ps, p, chunks[0], Flat(chunks[1..][..n - 1]));
    }
  }

  /** The one row that stands for an event. */
  predicate IsRow(rows: seq<Row>, i: int, id: int, n: int) {
    && 0 <= i < |rows| && rows[i].auctionId == id && rows[i].eventSeq == n
    && forall j | 0 <= j < |rows| && rows[j].auctionId == id && rows[j].eventSeq == n :: j == i
  }

  /** What publishing means for the server's logs: each logged event has one row, each published row was delivered,
      each delivery is a logged event, the deliveries of an auction never go back, and what a delivery has overtaken was
      delivered or its row is dead. */
  ghost predicate LogsDelivered(db: Db, ps: Sys) {
    && (forall id, n | Logged(db, id, n) :: HasRow(ps.rows, id, n))
    && (forall i | 0 <= i < |ps.rows| :: Logged(db, ps.rows[i].auctionId, ps.rows[i].eventSeq))
    && (forall i | 0 <= i < |ps.rows| && ps.rows[i].status == Published ::
          Delivery(ps.rows[i].auctionId, ps.rows[i].eventSeq) in ps.deliveries)
    && (forall k | 0 <= k < |ps.deliveries| :: Logged(db, ps.deliveries[k].auctionId, ps.deliveries[k].eventSeq))
    && (forall k, m | 0 <= k < m < |ps.deliveries| && ps.deliveries[k].auctionId == ps.deliveries[m].auctionId ::
          ps.deliveries[k].eventSeq <= ps.deliveries[m].eventSeq)
    && (forall k, n | 0 <= k < |ps.deliveries| && 1 <= n < ps.deliveries[k].eventSeq ::
          Settled(ps, ps.deliveries[k].auctionId, n))
  }

  /** Auction id has an event n in the server's log. */
  predicate Logged(db: Db, id: int, n: int) {
    id in db.auctions && 1 <= n <= db.auctions[id].version
  }

  ghost predicate HasRow(rows: seq<Row>, id: int, n: int) {
    exists i :: IsRow(rows, i, id, n)
  }

  /** Event n of auction id was delivered, or its row is dead. */
  ghost predicate Settled(ps: Sys, id: int, n: int) {
    Delivery(id, n) in ps.deliveries || exists i :: IsRow(ps.rows, i, id, n) && ps.rows[i].status == Dead
  }

  lemma RowOf(rows: seq<Row>, id: int, n: int) returns (i: nat)
    requires Rising(rows) && (id, n) in Numbers(rows)
    ensures IsRow(rows, i, id, n)
  {
    i :| 0 <= i < |rows| && (rows[i].auctionId, rows[i].eventSeq) == (id, n);
    forall j | 0 <= j < |rows| && rows[j].auctionId == id && rows[j].eventSeq == n
      ensures j == i
    {
    }
  }

  lemma LoggedIsStored(db: Db, id: int, n: int)
    requires DbInv(db)
    ensures Logged(db, id, n) <==> (id, n) in db.outbox
  {
    hide KeysOk, SliceInv;
  }

  lemma RowsAreLogged(db: Db, ps: Sys)
    requires DbInv(db) && Rising(ps.rows) && Numbers(ps.rows) == db.outbox.Keys
    ensures forall id, n | Logged(db, id, n) :: HasRow(ps.rows, id, n)
    ensures forall i | 0 <= i < |ps.rows| :: Logged(db, ps.rows[i].auctionId, ps.rows[i].eventSeq)
  {
    hide DbInv, Rising, Numbers, IsRow, Logged;
    forall id, n | Logged(db, id, n)
      ensures HasRow(ps.rows, id, n)
    {
      LoggedIsStored(db, id, n);
      var i := RowOf(ps.rows, id, n);
    }
    forall i | 0 <= i < |ps.rows|
      ensures Logged(db, ps.rows[i].auctionId, ps.rows[i].eventSeq)
    {
      InNumbers(ps.rows, i);
      LoggedIsStored(db, ps.rows[i].auctionId, ps.rows[i].eventSeq);
    }
  }

  lemma LoggedDown(db: Db, id: int, n: int, m: int)
    requires Logged(db, id, m) && 1 <= n <= m
    ensures Logged(db, id, n)
  {
  }

  lemma RowAt(rows: seq<Row>, i: int, id: int, n: int)
    requires IsRow(rows, i, id, n)
    ensures 0 <= i < |rows| && rows[i].auctionId == id && rows[i].eventSeq == n
  {
  }

  lemma DeliveriesAreLogged(db: Db, ps: Sys, p: Params, k: nat)
    requires DbInv(db) && OutboxPublisher.Inv(ps, p) && Numbers(ps.rows) == db.outbox.Keys && k < |ps.deliveries|
    ensures Logged(db, ps.deliveries[k].auctionId, ps.deliveries[k].eventSeq)
    ensures forall n | 1 <= n < ps.deliveries[k].eventSeq :: Settled(ps, ps.deliveries[k].auctionId, n)
  {
    hide DbInv, Rising, Numbers, IsRow, Bounded, FlightsOk, Logged;
    var d := ps.deliveries[k];
    assert Exists(ps.rows, d) && NoneWaitingBelow(ps.rows, d);
    var j :| 0 <= j < |ps.rows| && Delivery(ps.rows[j].auctionId, ps.rows[j].eventSeq) == d;
    InNumbers(ps.rows, j);
    LoggedIsStored(db, d.auctionId, d.eventSeq);
    forall n | 1 <= n < d.eventSeq
      ensures Settled(ps, d.auctionId, n)
    {
      LoggedDown(db, d.auctionId, n, d.eventSeq);
      LoggedIsStored(db, d.auctionId, n);
      var i := RowOf(ps.rows, d.auctionId, n);
      RowAt(ps.rows, i, d.auctionId, n);
    }
  }

  /** Server and publishers from their start, in any order of their steps: at every moment, delivery order is a fact
      about the server's logs. */
  lemma LogsAreDelivered(clock: int, pclock: int, p: Params, steps: seq<Step>, chunks: seq<seq<Action>>, n: nat)
    requires p.maxRetries > 0 && n <= |steps| == |chunks|
    requires Follows(Server.Boot(clock), Boot(pclock), p, steps, chunks)
    ensures LogsDelivered(ServerAfter(Server.Boot(clock), steps[..n]).db, Exec(Boot(pclock), p, Flat(chunks[..n])))
  {
    hide Follows, Server.Inv, Numbers, Rising, DbInv, Logged, Settled, IsRow, Exists, NoneWaitingBelow;
    ServerBoots(clock);
    AtEveryMoment(Server.Boot(clock), Boot(pclock), p, steps, chunks, n);
    PublishersBoot(pclock, p);
    OutboxPublisher.RunKeeps(Boot(pclock), p, Flat(chunks[..n]));
    var db, ps := ServerAfter(Server.Boot(clock), steps[..n]).db, Exec(Boot(pclock), p, Flat(chunks[..n]));
    ServerDb(ServerAfter(Server.Boot(clock), steps[..n]));
    RowsAreLogged(db, ps);
    forall k | 0 <= k < |ps.deliveries|
      ensures Logged(db, ps.deliveries[k].auctionId, ps.deliveries[k].eventSeq)
      ensures forall m | 1 <= m < ps.deliveries[k].eventSeq :: Settled(ps, ps.deliveries[k].auctionId, m)
    {
      DeliveriesAreLogged(db, ps, p, k);
    }
  }

  lemma ServerDb(s: Server.Sys)
    requires Server.Inv(s)
    ensures DbInv(s.db)
  {
  }

  lemma ServerBoots(clock: int)
    ensures Server.Inv(Server.Boot(clock))
  {
  }

  lemma PublishersBoot(clock: int, p: Params)
    ensures OutboxPublisher.Inv(Boot(clock), p)
  {
  }
}
