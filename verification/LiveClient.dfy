/** One client watching one auction of the running server: socket deliveries, compensations that page
    through the log, status refreshes, all interleaved at every await. A request, each read of the server
    that answers it, and the arrival of the answer are separate steps. */
module LiveClient {
  import opened AuctionTypes
  import opened Tables
  import opened AuctionInvariant
  import opened TransactionSafety
  import opened ClientStore
  import Replay
  import Server = BidCalls

  const PAGES := 5

  /** A suspended `handleServerEvent` or status refresh. */
  datatype Task =
    | Paging(cursor: int, page: nat, event: Event)
    | Ranged(cursor: int, page: nat, event: Event, atRange: seq<Event>)
    | Paged(cursor: int, page: nat, event: Event, result: Replay.ReplayResult)
    | Asking(waiting: Option<Event>)
    | RowRead(waiting: Option<Event>, row: Auction)
    | Answered(waiting: Option<Event>, row: Auction, lastEventSeq: int)
    | Resuming(event: Event)

  /** `gaps` counts the events and pages that moved the store's number by more than one. */
  datatype Client = Client(store: StoreState, connected: bool, disposed: bool, tasks: map<nat, Task>, gaps: nat)

  datatype World = World(sys: Server.Sys, id: int, client: Client)

  datatype Action =
    | Serve(act: Server.Action)
    | Deliver(task: nat, n: nat)
    | Viewers(stamp: int, viewers: int)
    | Poll(task: nat)
    | ReadRange(task: nat)
    | ReadRows(task: nat)
    | ArrivePage(task: nat)
    | ReadRow(task: nat)
    | ReadSeq(task: nat)
    | ArriveStatus(task: nat)
    | Resume(task: nat)
    | Lose(task: nat)
    | Connect(connected: bool)
    | Dispose

  function LogIn(sys: Server.Sys, id: int): seq<Event> {
    if id in sys.db.auctions then LogOf(sys.db, id) else []
  }

  function Gap(st: StoreState, st': StoreState): nat {
    if st'.lastSeq == st.lastSeq || st'.lastSeq == st.lastSeq + 1 then 0 else 1
  }

  function Fold1(c: Client, e: Event): Client {
    var st := ApplyEvent(c.store, e);
    c.(store := st, gaps := c.gaps + Gap(c.store, st))
  }

  function FoldPage(c: Client, events: seq<Event>): Client {
    c.(store := ApplyAll(c.store, events), gaps := c.gaps + if GapFree(c.store, events) then 0 else 1)
  }

  function Put(c: Client, t: nat, task: Task): Client {
    c.(tasks := c.tasks[t := task])
  }

  function End(c: Client, t: nat): Client {
    c.(tasks := c.tasks - {t})
  }

  /** The message handler outlives its page: only what follows an await asks whether the page was left. */
  function OnDelivery(c: Client, t: nat, e: Event): Client {
    if t in c.tasks then c
    else if e.eventSeq > c.store.lastSeq + 1 then Put(c, t, Paging(c.store.lastSeq, 0, e))
    else Fold1(c, e)
  }

  function OnPage(c: Client, t: nat, task: Task): Client
    requires task.Paged?
  {
    if c.disposed then End(c, t)
    else if task.result.snapshotRequired then Put(c, t, Asking(Some(task.event)))
    else
      var c1 := FoldPage(c, task.result.events);
      if !task.result.hasMore then Put(c1, t, Resuming(task.event))
      else if task.page + 1 >= PAGES then Put(c1, t, Asking(Some(task.event)))
      else Put(c1, t, Paging(Replay.Cursor(task.cursor, task.result.events), task.page + 1, task.event))
  }

  function AuctionOf(row: Auction): ClientAuction {
    ClientAuction(Some(row.status), Some(row.currentPrice), row.leaderId, Some(row.endTime), Some(row.bidCount))
  }

  function OnStatus(c: Client, t: nat, task: Task): Client
    requires task.Answered?
  {
    var c1 := c.(store := ApplySnapshot(c.store, c.connected, Snapshot(AuctionOf(task.row), task.lastEventSeq, 0)));
    match task.waiting
    case Some(e) => Put(c1, t, Resuming(e))
    case None => End(c1, t)
  }

  function OnResume(c: Client, t: nat, e: Event): Client {
    if c.disposed || e.eventSeq <= c.store.lastSeq then End(c, t) else End(Fold1(c, e), t)
  }

  /** The client after an action of its own, while the server's log and row are as given. */
  function ClientNext(c: Client, act: Action, log: seq<Event>, row: Option<Auction>): Client {
    match act
    case Deliver(t, n) => if 1 <= n <= |log| then OnDelivery(c, t, log[n - 1]) else c
    case Viewers(stamp, n) => Fold1(c, Event(ViewerId(0, stamp), 0, 0, ViewerCount(n, 0)))
    case Poll(t) => if t in c.tasks then c else Put(c, t, Asking(None))
    case ReadRange(t) =>
      if t in c.tasks && c.tasks[t].Paging? then
        var p := c.tasks[t]; Put(c, t, Ranged(p.cursor, p.page, p.event, log))
      else c
    case ReadRows(t) =>
      if t in c.tasks && c.tasks[t].Ranged? then
        var p := c.tasks[t];
        Put(c, t, Paged(p.cursor, p.page, p.event, Replay.Page(p.atRange, log, p.cursor, Replay.DEFAULT_LIMIT)))
      else c
    case ArrivePage(t) => if t in c.tasks && c.tasks[t].Paged? then OnPage(c, t, c.tasks[t]) else c
    case ReadRow(t) =>
      if t in c.tasks && c.tasks[t].Asking? && row.Some? then Put(c, t, RowRead(c.tasks[t].waiting, row.value)) else c
    case ReadSeq(t) =>
      if t in c.tasks && c.tasks[t].RowRead? then Put(c, t, Answered(c.tasks[t].waiting, c.tasks[t].row, |log|)) else c
    case ArriveStatus(t) => if t in c.tasks && c.tasks[t].Answered? then OnStatus(c, t, c.tasks[t]) else c
    case Resume(t) => if t in c.tasks && c.tasks[t].Resuming? then OnResume(c, t, c.tasks[t].event) else c
    case Lose(t) => End(c, t)
    case Connect(b) => c.(connected := b)
    case Dispose => c.(disposed := true)
    case Serve(_) => c
  }

  function Next(w: World, act: Action): World {
    match act
    case Serve(a) => w.(sys := Server.Next(w.sys, a))
    case _ => w.(client := ClientNext(w.client, act, LogIn(w.sys, w.id), Lookup(w.sys.db.auctions, w.id)))
  }

  function Exec(w: World, acts: seq<Action>): World
    decreases |acts|
  {
    if acts == [] then w else Exec(Next(w, acts[0]), acts[1..])
  }

  function Boot(clock: int, id: int): World {
    World(Server.Boot(clock), id, Client(INITIAL, false, false, map[], 0))
  }

  // ---- what a client may believe of a status answer ----

  /** The answer's row carries the number that the answer claims, and it is not behind the store. */
  predicate Trusted(c: Client, act: Action) {
    act.ArriveStatus? && act.task in c.tasks && c.tasks[act.task].Answered? ==>
      && c.tasks[act.task].row.version == c.tasks[act.task].lastEventSeq
      && c.tasks[act.task].lastEventSeq >= c.store.lastSeq
  }

  predicate TrustedRun(w: World, acts: seq<Action>)
    decreases |acts|
  {
    acts == [] || (Trusted(w.client, acts[0]) && TrustedRun(Next(w, acts[0]), acts[1..]))
  }

  // ---- the invariant ----

  predicate InLog(e: Event, log: seq<Event>) {
    1 <= e.eventSeq <= |log|
  }

  /** The row as some transaction left it: what comes after it in the log does not begin with an extension. */
  predicate RowFits(row: Auction, log: seq<Event>) {
    && row.version <= |log| && SnapshotOf(AuctionOf(row), Fold(log[..row.version]))
    && (row.version < |log| ==> !log[row.version].body.AuctionExtended?)
  }

  predicate TaskOk(task: Task, lastSeq: int, log: seq<Event>) {
    match task
    case Paging(cursor, page, e) => 0 <= cursor <= lastSeq && InLog(e, log) && page < PAGES
    case Ranged(cursor, page, e, atRange) =>
      0 <= cursor <= lastSeq && InLog(e, atRange) && atRange <= log && page < PAGES
    case Paged(cursor, page, e, r) =>
      && 0 <= cursor <= lastSeq && InLog(e, log) && page < PAGES
      && (!r.snapshotRequired ==>
           && IsRun(log, r.events, cursor)
           && Replay.Cursor(cursor, r.events) == cursor + |r.events|
           && (!r.hasMore ==> cursor + |r.events| >= e.eventSeq))
    case Asking(waiting) => waiting.Some? ==> InLog(waiting.value, log)
    case RowRead(waiting, row) =>
      && (waiting.Some? ==> InLog(waiting.value, log))
      && RowFits(row, log)
    case Answered(waiting, row, n) =>
      && row.version <= n <= |log| && (waiting.Some? ==> waiting.value.eventSeq <= n)
      && RowFits(row, log)
    case Resuming(e) => e.eventSeq <= lastSeq
  }

  ghost predicate ClientOk(c: Client, log: seq<Event>) {
    && InSync(c.store, log)
    && c.gaps == 0
    && forall t | t in c.tasks :: TaskOk(c.tasks[t], c.store.lastSeq, log)
  }

  ghost predicate Inv(w: World) {
    && Server.Inv(w.sys)
    && ClientOk(w.client, LogIn(w.sys, w.id))
  }

  lemma TaskLater(task: Task, n: int, m: int, log: seq<Event>, log': seq<Event>)
    requires TaskOk(task, n, log) && n <= m && Continues(log, log')
    ensures TaskOk(task, m, log')
  {
    if task.RowRead? || task.Answered? {
      assert log'[..task.row.version] == log[..task.row.version];
    }
  }

  /** A store that has moved on, with one task replaced, is as good as before. */
  lemma Moved(c: Client, c': Client, log: seq<Event>, t: nat)
    requires ClientOk(c, log) && InSync(c'.store, log) && c'.gaps == 0
    requires c.store.lastSeq <= c'.store.lastSeq
    requires forall u | u in c'.tasks && u != t :: u in c.tasks && c'.tasks[u] == c.tasks[u]
    requires t in c'.tasks ==> TaskOk(c'.tasks[t], c'.store.lastSeq, log)
    ensures ClientOk(c', log)
  {
    hide TaskOk, InSync;
    forall u | u in c'.tasks
      ensures TaskOk(c'.tasks[u], c'.store.lastSeq, log)
    {
      if u != t {
        TaskLater(c.tasks[u], c.store.lastSeq, c'.store.lastSeq, log, log);
      }
    }
  }

  lemma DeliveryKeeps(c: Client, t: nat, log: seq<Event>, n: nat)
    requires WellNumbered(log) && ClientOk(c, log) && 1 <= n <= |log|
    ensures ClientOk(OnDelivery(c, t, log[n - 1]), log)
  {
    var e := log[n - 1];
    if t !in c.tasks {
      if e.eventSeq == c.store.lastSeq + 1 {
        NextEventInSync(c.store, log);
      } else if e.eventSeq <= c.store.lastSeq {
        OldEventInSync(c.store, log, e);
      }
      hide WellNumbered, Agrees, ApplyEvent;
      Moved(c, OnDelivery(c, t, e), log, t);
    }
  }

  lemma RowsKeep(c: Client, t: nat, log: seq<Event>)
    requires WellNumbered(log) && ClientOk(c, log) && t in c.tasks && c.tasks[t].Ranged?
    ensures ClientOk(ClientNext(c, ReadRows(t), log, None), log)
  {
    var p := c.tasks[t];
    assert TaskOk(p, c.store.lastSeq, log);
    PageTask(p, c.store.lastSeq, log);
    hide TaskOk, InSync;
    Moved(c, ClientNext(c, ReadRows(t), log, None), log, t);
  }

  lemma PageTask(p: Task, lastSeq: int, log: seq<Event>)
    requires WellNumbered(log) && p.Ranged? && TaskOk(p, lastSeq, log) && lastSeq <= |log|
    ensures TaskOk(Paged(p.cursor, p.page, p.event, Replay.Page(p.atRange, log, p.cursor, Replay.DEFAULT_LIMIT)),
                   lastSeq, log)
  {
    hide Replay.Page;
    Replay.PageExact(p.atRange, log, 1, p.cursor, Replay.DEFAULT_LIMIT);
    var r := Replay.Page(p.atRange, log, p.cursor, Replay.DEFAULT_LIMIT);
    if !r.snapshotRequired {
      var rest := Replay.Suffix(log, 1, p.cursor);
      assert rest == log[p.cursor..];
      Replay.SuffixNumbers(log, 1, p.cursor);
      Replay.CursorOfPage(p.cursor, r.events);
    }
  }

  lemma PageKeeps(c: Client, t: nat, log: seq<Event>)
    requires WellNumbered(log) && ClientOk(c, log) && t in c.tasks && c.tasks[t].Paged?
    ensures ClientOk(OnPage(c, t, c.tasks[t]), log)
  {
    hide InSync, WellNumbered, FoldPage;
    var p := c.tasks[t];
    assert TaskOk(p, c.store.lastSeq, log);
    if !c.disposed && !p.result.snapshotRequired {
      PageFolded(c, log, p.result.events, p.cursor);
    }
    Moved(c, OnPage(c, t, p), log, t);
  }

  lemma PageFolded(c: Client, log: seq<Event>, events: seq<Event>, cursor: nat)
    requires WellNumbered(log) && InSync(c.store, log) && c.gaps == 0
    requires IsRun(log, events, cursor) && cursor <= c.store.lastSeq
    ensures var c1 := FoldPage(c, events);
            && InSync(c1.store, log) && c1.gaps == 0
            && c1.tasks == c.tasks && c1.disposed == c.disposed
            && c.store.lastSeq <= c1.store.lastSeq && cursor + |events| <= c1.store.lastSeq
  {
    PageInSync(c.store, log, events, cursor);
  }

  lemma StatusKeeps(c: Client, t: nat, log: seq<Event>)
    requires ClientOk(c, log) && t in c.tasks && c.tasks[t].Answered? && Trusted(c, ArriveStatus(t))
    ensures ClientOk(OnStatus(c, t, c.tasks[t]), log)
  {
    var p := c.tasks[t];
    assert TaskOk(p, c.store.lastSeq, log);
    SnapshotInSync(c.store, c.connected, Snapshot(AuctionOf(p.row), p.lastEventSeq, 0), log);
    hide InSync;
    Moved(c, OnStatus(c, t, p), log, t);
  }

  /** The last step of a handler whose compensation has finished: it finds its event already folded. */
  lemma ResumeDropsEvent(c: Client, t: nat, log: seq<Event>)
    requires ClientOk(c, log) && t in c.tasks && c.tasks[t].Resuming?
    ensures OnResume(c, t, c.tasks[t].event) == End(c, t)
  {
    assert TaskOk(c.tasks[t], c.store.lastSeq, log);
  }

  lemma ClientKeeps(c: Client, act: Action, log: seq<Event>, row: Option<Auction>)
    requires WellNumbered(log) && ClientOk(c, log) && Trusted(c, act)
    requires row.Some? ==> row.value.version == |log| && SnapshotOf(AuctionOf(row.value), Fold(log))
    ensures ClientOk(ClientNext(c, act, log, row), log)
  {
    hide InSync, WellNumbered, SnapshotOf, AuctionOf, Trusted, OnDelivery, OnPage, OnStatus;
    match act
    case Deliver(t, n) => if 1 <= n <= |log| { DeliveryKeeps(c, t, log, n); }
    case Viewers(stamp, n) =>
      OldEventInSync(c.store, log, Event(ViewerId(0, stamp), 0, 0, ViewerCount(n, 0)));
    case ReadRows(t) => if t in c.tasks && c.tasks[t].Ranged? { RowsKeep(c, t, log); }
    case ArrivePage(t) => if t in c.tasks && c.tasks[t].Paged? { PageKeeps(c, t, log); }
    case ArriveStatus(t) => if t in c.tasks && c.tasks[t].Answered? { StatusKeeps(c, t, log); }
    case Resume(t) => if t in c.tasks && c.tasks[t].Resuming? { ResumeDropsEvent(c, t, log); }
    case ReadRow(t) => assert log[..|log|] == log;
    case _ =>
  }

  lemma RowTellsTheLog(sys: Server.Sys, id: int)
    requires Server.Inv(sys) && id in sys.db.auctions
    ensures WellNumbered(LogOf(sys.db, id))
    ensures |LogOf(sys.db, id)| == sys.db.auctions[id].version
    ensures SnapshotOf(AuctionOf(sys.db.auctions[id]), Fold(LogOf(sys.db, id)))
    ensures Rebuilds(Fold(LogOf(sys.db, id)), SliceOf(sys.db, id))
  {
    hide KeysOk, NoHoles, Server.CallsOk, BidsOk, ConfigOk, DeadlineOk, OrderOk, PhaseOk;
    assert SliceInv(id, SliceOf(sys.db, id));
  }

  lemma NextKeeps(w: World, act: Action)
    requires Inv(w) && Trusted(w.client, act)
    ensures Inv(Next(w, act))
  {
    hide Server.Inv, TaskOk, WellNumbered, InSync, ClientNext, Rebuilds, SnapshotOf, Grows, Trusted;
    var log := LogIn(w.sys, w.id);
    if w.id in w.sys.db.auctions {
      RowTellsTheLog(w.sys, w.id);
    }
    if act.Serve? {
      ServerKeeps(w, act.act);
    } else {
      NothingNumbered();
      ClientKeeps(w.client, act, log, Lookup(w.sys.db.auctions, w.id));
    }
  }

  lemma NothingNumbered()
    ensures WellNumbered([])
  {
  }

  lemma FirstNotExtended(log: seq<Event>)
    requires WellNumbered(log)
    ensures Continues([], log)
  {
  }

  lemma ServerKeeps(w: World, act: Server.Action)
    requires Inv(w)
    ensures Inv(Next(w, Serve(act)))
  {
    hide InSync, TaskOk, WellNumbered, Server.CallsOk, DbInv, Server.Next;
    Server.NextKeeps(w.sys, act);
    Server.NextDb(w.sys, act);
    var log, log' := LogIn(w.sys, w.id), LogIn(Server.Next(w.sys, act), w.id);
    if w.id in Server.Next(w.sys, act).db.auctions {
      RowTellsTheLog(Server.Next(w.sys, act), w.id);
      FirstNotExtended(log');
    }
    assert Continues(log, log');
    GrowthInSync(w.client.store, log, log');
    forall t | t in w.client.tasks
      ensures TaskOk(w.client.tasks[t], w.client.store.lastSeq, log')
    {
      TaskLater(w.client.tasks[t], w.client.store.lastSeq, w.client.store.lastSeq, log, log');
    }
  }

  lemma {:induction false} RunKeeps(w: World, acts: seq<Action>)
    requires Inv(w) && TrustedRun(w, acts)
    ensures Inv(Exec(w, acts))
    decreases |acts|
  {
    hide Inv, Next, Trusted;
    if acts != [] {
      NextKeeps(w, acts[0]);
      RunKeeps(Next(w, acts[0]), acts[1..]);
    }
  }

  /** Under every interleaving of commits, deliveries, duplicates, gaps, overlapping compensations and
      refreshes, as long as the status answers that arrive are trustworthy: no event is ever folded but the
      next one, the store shows the fold of the events 1..lastSeq, and whenever that is the auction's
      version it shows the row. */
  lemma ReplicaCorrect(clock: int, id: int, acts: seq<Action>)
    requires TrustedRun(Boot(clock, id), acts) && id in Exec(Boot(clock, id), acts).sys.db.auctions
    ensures var w := Exec(Boot(clock, id), acts);
            var st, row, log := w.client.store, w.sys.db.auctions[id], LogOf(w.sys.db, id);
            && w.id == id
            && w.client.gaps == 0
            && 0 <= st.lastSeq <= row.version
            && Agrees(st, Fold(log[..st.lastSeq]))
            && PanelAgrees(st.ended, Fold(log[..st.lastSeq]))
            && (st.lastSeq == row.version ==> PanelShows(st.ended, row, Lookup(w.sys.db.orders, id)))
            && (st.lastSeq == row.version && st.auction.Some? ==> Shows(st, row, Begun(log)))
            && (st.lastSeq == row.version && st.auction.None? ==> !Begun(log))
  {
    hide TaskOk, Server.Inv, Next;
    Booted(clock, id);
    RunKeeps(Boot(clock, id), acts);
    SameAuction(Boot(clock, id), acts);
    var w := Exec(Boot(clock, id), acts);
    RowTellsTheLog(w.sys, id);
    var log := LogOf(w.sys.db, id);
    assert log[..|log|] == log;
  }

  /** The row as the room shows it; before the start only the status is compared. */
  predicate Shows(st: StoreState, row: Auction, begun: bool)
    requires st.auction.Some?
  {
    var a := st.auction.value;
    && a.status == Some(row.status)
    && (begun ==>
         && a.currentPrice == Some(row.currentPrice)
         && (if row.status == Ended then st.ended.winner == row.leaderId else a.leader == row.leaderId))
    && (row.status == Active ==> a.endTime == Some(row.endTime) && BidCountOf(a) == row.bidCount)
  }

  /** The panel against the server: open exactly for an ended auction, with its leader and his price as the outcome,
      and its order or none. */
  predicate PanelShows(panel: EndPanel, row: Auction, order: Option<Order>) {
    && (panel.open <==> row.status == Ended)
    && (row.status == Ended ==>
         && panel.winner == row.leaderId
         && (row.leaderId.Some? ==> panel.finalPrice == Some(row.currentPrice))
         && (panel.orderId.Some? ==> order.Some? && panel.orderId.value == order.value.id))
  }

  lemma Booted(clock: int, id: int)
    ensures Inv(Boot(clock, id))
  {
  }

  lemma {:induction false} SameAuction(w: World, acts: seq<Action>)
    ensures Exec(w, acts).id == w.id
    decreases |acts|
  {
    if acts != [] {
      SameAuction(Next(w, acts[0]), acts[1..]);
    }
  }

  // ---- the handler of one event ----

  /** The steps of the handler `t` itself. */
  predicate OwnStep(act: Action, t: nat) {
    match act
    case ReadRange(u) => u == t
    case ReadRows(u) => u == t
    case ArrivePage(u) => u == t
    case ReadRow(u) => u == t
    case ReadSeq(u) => u == t
    case ArriveStatus(u) => u == t
    case Resume(u) => u == t
    case _ => false
  }

  function ClientRun(c: Client, acts: seq<Action>, log: seq<Event>, row: Option<Auction>): Client
    decreases |acts|
  {
    if acts == [] then c else ClientRun(ClientNext(c, acts[0], log, row), acts[1..], log, row)
  }

  function PagesAsked(acts: seq<Action>): nat {
    if acts == [] then 0 else (if acts[0].ReadRange? then 1 else 0) + PagesAsked(acts[1..])
  }

  /** The handler has finished: its event is among those that the store shows. */
  ghost predicate Handled(c: Client, t: nat, e: Event, log: seq<Event>) {
    t !in c.tasks && e.eventSeq <= c.store.lastSeq && InSync(c.store, log) && c.gaps == 0
  }

  /** What the server says while it is quiet. */
  predicate Tells(row: Auction, log: seq<Event>) {
    row.version == |log| && SnapshotOf(AuctionOf(row), Fold(log))
  }

  lemma Steps(c: Client, x: Action, rest: seq<Action>, log: seq<Event>, row: Option<Auction>)
    ensures ClientRun(c, [x] + rest, log, row) == ClientRun(ClientNext(c, x, log, row), rest, log, row)
    ensures PagesAsked([x] + rest) == PagesAsked(rest) + if x.ReadRange? then 1 else 0
  {
    hide ClientNext;
    assert ([x] + rest)[1..] == rest;
  }

  lemma ResumeEnds(c: Client, t: nat, log: seq<Event>, row: Auction) returns (acts: seq<Action>)
    requires ClientOk(c, log) && t in c.tasks && c.tasks[t].Resuming?
    ensures (forall a | a in acts :: OwnStep(a, t) && !a.ReadRow?) && PagesAsked(acts) == 0
    ensures Handled(ClientRun(c, acts, log, Some(row)), t, c.tasks[t].event, log)
  {
    hide InSync;
    acts := [Resume(t)];
    Steps(c, Resume(t), [], log, Some(row));
    assert [Resume(t)] + [] == [Resume(t)];
    assert TaskOk(c.tasks[t], c.store.lastSeq, log);
    ResumeDropsEvent(c, t, log);
  }

  lemma AskingEnds(c: Client, t: nat, log: seq<Event>, row: Auction) returns (acts: seq<Action>)
    requires WellNumbered(log) && ClientOk(c, log) && Tells(row, log)
    requires t in c.tasks && c.tasks[t].Asking? && c.tasks[t].waiting.Some?
    ensures (forall a | a in acts :: OwnStep(a, t)) && PagesAsked(acts) == 0
    ensures Handled(ClientRun(c, acts, log, Some(row)), t, c.tasks[t].waiting.value, log)
  {
    hide InSync, WellNumbered, TaskOk, SnapshotOf, AuctionOf, Fold, ApplySnapshot;
    var e := c.tasks[t].waiting.value;
    ClientKeeps(c, ReadRow(t), log, Some(row));
    var c1 := ClientNext(c, ReadRow(t), log, Some(row));
    ClientKeeps(c1, ReadSeq(t), log, Some(row));
    var c2 := ClientNext(c1, ReadSeq(t), log, Some(row));
    assert c2.tasks[t] == Answered(Some(e), row, |log|);
    NotBehind(c2.store, log);
    ClientKeeps(c2, ArriveStatus(t), log, Some(row));
    var c3 := ClientNext(c2, ArriveStatus(t), log, Some(row));
    var rest := ResumeEnds(c3, t, log, row);
    acts := [ReadRow(t)] + ([ReadSeq(t)] + ([ArriveStatus(t)] + rest));
    Steps(c, ReadRow(t), [ReadSeq(t)] + ([ArriveStatus(t)] + rest), log, Some(row));
    Steps(c1, ReadSeq(t), [ArriveStatus(t)] + rest, log, Some(row));
    Steps(c2, ArriveStatus(t), rest, log, Some(row));
  }

  lemma NotBehind(st: StoreState, log: seq<Event>)
    requires InSync(st, log)
    ensures st.lastSeq <= |log|
  {
  }

  /** A page of a log at rest, for a cursor that is not too far behind. */
  lemma QuietPage(log: seq<Event>, cursor: int)
    requires WellNumbered(log) && 0 <= cursor <= |log|
    ensures var r := Replay.Page(log, log, cursor, Replay.DEFAULT_LIMIT);
            && (r.snapshotRequired ==> |log| - cursor > 500)
            && (r.hasMore ==> |log| - cursor > 100)
            && (r.hasMore ==> Replay.Cursor(cursor, r.events) == cursor + 100)
  {
    hide Replay.Page;
    Replay.PageExact(log, log, 1, cursor, Replay.DEFAULT_LIMIT);
    Replay.NumberedPage(log, log, 1, cursor, Replay.DEFAULT_LIMIT);
    Replay.PageMore(log, log, cursor, Replay.DEFAULT_LIMIT);
    Replay.CursorOfPage(cursor, Replay.Page(log, log, cursor, Replay.DEFAULT_LIMIT).events);
  }

  /** Once the server is quiet, a compensation comes to its end by its own steps: after at most five pages, and a status
      answer if they do not reach, the store shows the event that started it. Five pages reach over 500 events. */
  lemma {:induction false} CatchesUp(c: Client, t: nat, log: seq<Event>, row: Auction) returns (acts: seq<Action>)
    requires WellNumbered(log) && ClientOk(c, log) && Tells(row, log)
    requires t in c.tasks && c.tasks[t].Paging? && !c.disposed
    ensures (forall a | a in acts :: OwnStep(a, t)) && PagesAsked(acts) <= 5 - c.tasks[t].page
    ensures Handled(ClientRun(c, acts, log, Some(row)), t, c.tasks[t].event, log)
    ensures |log| - c.tasks[t].cursor <= 100 * (5 - c.tasks[t].page) ==> forall a | a in acts :: !a.ReadRow?
    decreases 5 - c.tasks[t].page
  {
    hide InSync, WellNumbered, SnapshotOf, AuctionOf, Fold, FoldPage, Replay.Page;
    var p := c.tasks[t];
    assert TaskOk(p, c.store.lastSeq, log);
    ClientKeeps(c, ReadRange(t), log, Some(row));
    var c1 := ClientNext(c, ReadRange(t), log, Some(row));
    ClientKeeps(c1, ReadRows(t), log, Some(row));
    var c2 := ClientNext(c1, ReadRows(t), log, Some(row));
    assert c2.tasks[t] == Paged(p.cursor, p.page, p.event, Replay.Page(log, log, p.cursor, Replay.DEFAULT_LIMIT));
    ClientKeeps(c2, ArrivePage(t), log, Some(row));
    var c3 := ClientNext(c2, ArrivePage(t), log, Some(row));
    PageLeads(c2, t);
    NotBehind(c.store, log);
    QuietPage(log, p.cursor);
    var rest: seq<Action>;
    if c3.tasks[t].Asking? {
      rest := AskingEnds(c3, t, log, row);
    } else if c3.tasks[t].Resuming? {
      rest := ResumeEnds(c3, t, log, row);
    } else {
      rest := CatchesUp(c3, t, log, row);
    }
    acts := [ReadRange(t)] + ([ReadRows(t)] + ([ArrivePage(t)] + rest));
    Steps(c, ReadRange(t), [ReadRows(t)] + ([ArrivePage(t)] + rest), log, Some(row));
    Steps(c1, ReadRows(t), [ArrivePage(t)] + rest, log, Some(row));
    Steps(c2, ArrivePage(t), rest, log, Some(row));
  }

  /** Where a page leads: to the status, to the next page after the fifth at the latest, or back to the event. */
  lemma PageLeads(c: Client, t: nat)
    requires t in c.tasks && c.tasks[t].Paged? && !c.disposed
    ensures var p, c' := c.tasks[t], OnPage(c, t, c.tasks[t]);
            && t in c'.tasks && !c'.disposed
            && (c'.tasks[t] == Asking(Some(p.event))
                <==> p.result.snapshotRequired || (p.result.hasMore && p.page >= 4))
            && (c'.tasks[t] == Resuming(p.event) <==> !p.result.snapshotRequired && !p.result.hasMore)
            && (c'.tasks[t].Paging?
                <==> !p.result.snapshotRequired && p.result.hasMore && p.page < 4)
            && (c'.tasks[t].Paging? ==>
                 c'.tasks[t] == Paging(Replay.Cursor(p.cursor, p.result.events), p.page + 1, p.event))
            && (p.result.snapshotRequired ==> c'.store == c.store)
  {
  }

  /** Trusted or not: an event that is handled to its end is in the store, or was already seen there. */
  lemma NothingIsForgotten(c: Client, t: nat, e: Event)
    requires !e.body.ViewerCount? && !e.body.Placeholder?
    ensures !c.disposed ==> OnResume(c, t, e).store.lastSeq >= e.eventSeq || e.id in c.store.seen
    ensures t !in c.tasks ==>
              var c' := OnDelivery(c, t, e);
              || (t in c'.tasks && c'.tasks[t] == Paging(c.store.lastSeq, 0, e) && c'.store == c.store)
              || c'.store.lastSeq >= e.eventSeq || e.id in c.store.seen
  {
  }

  /** A status answer hands its event back, and ends a refresh that waited for none. */
  lemma StatusLeads(c: Client, t: nat)
    requires t in c.tasks && c.tasks[t].Answered?
    ensures var p, c' := c.tasks[t], OnStatus(c, t, c.tasks[t]);
            && (p.waiting.Some? ==> t in c'.tasks && c'.tasks[t] == Resuming(p.waiting.value))
            && (p.waiting.None? ==> t !in c'.tasks)
            && (forall u | u != t :: u in c'.tasks <==> u in c.tasks)
  {
  }

  /** `gaps` rises exactly when an event moves the store's number by anything but nothing or one. */
  lemma GapsAreCounted(c: Client, e: Event)
    ensures var c' := Fold1(c, e);
            c'.gaps == c.gaps <==> c'.store.lastSeq == c.store.lastSeq || c'.store.lastSeq == c.store.lastSeq + 1
  {
  }

  /** After the page was left, an answer under way changes nothing but what a status brings. */
  lemma DisposedStops(c: Client, t: nat, task: Task)
    requires c.disposed
    ensures task.Paged? ==> OnPage(c, t, task) == End(c, t)
    ensures task.Resuming? ==> OnResume(c, t, task.event) == End(c, t)
  {
  }

  // ---- why status answers must be trusted ----

  /** A status answer that is behind the store moves it back; a page already on its way for the old number
      is then folded without a gap exactly if it starts no later than where the answer left the store. */
  lemma StaleStatus(c: Client, t: nat, u: nat, log: seq<Event>)
    requires WellNumbered(log) && ClientOk(c, log) && t in c.tasks && c.tasks[t].Answered?
    requires u in c.tasks && c.tasks[u].Paged?
    requires t != u && !c.disposed && c.tasks[t].row.version == c.tasks[t].lastEventSeq
    requires !c.tasks[u].result.snapshotRequired && c.tasks[u].result.events != []
    ensures var c1 := OnStatus(c, t, c.tasks[t]);
            && c1.store.lastSeq == c.tasks[t].lastEventSeq
            && u in c1.tasks && c1.tasks[u] == c.tasks[u]
            && (OnPage(c1, u, c1.tasks[u]).gaps == 0 <==> c.tasks[u].cursor <= c.tasks[t].lastEventSeq)
  {
    var p, q := c.tasks[t], c.tasks[u];
    assert TaskOk(p, c.store.lastSeq, log) && TaskOk(q, c.store.lastSeq, log);
    SnapshotInSync(c.store, c.connected, Snapshot(AuctionOf(p.row), p.lastEventSeq, 0), log);
    var c1 := OnStatus(c, t, p);
    LatePageLeavesGap(c1.store, log, q.result.events, q.cursor);
  }

  /** The bid count of a live auction's replay rises from its m-th event on, if that event is not an extension. */
  lemma {:induction false} CountRises(log: seq<Event>, m: nat, n: nat)
    requires WellNumbered(log) && 0 < m < n <= |log| && Fold(log[..n]).status == Active && !log[m].body.AuctionExtended?
    ensures Fold(log[..n]).bidCount > Fold(log[..m]).bidCount
    decreases n
  {
    assert log[..n] == log[..n - 1] + [log[n - 1]];
    FoldSnoc(log[..n - 1], log[n - 1]);
    FoldShape(log, n);
    if m < n - 1 {
      FoldShape(log, n - 1);
      CountRises(log, m, n - 1);
    }
  }

  /** Two different moments at which transactions left an auction can be told apart by its status or its bid count. */
  lemma MomentsDiffer(log: seq<Event>, m: nat, n: nat)
    requires WellNumbered(log) && m < n <= |log| && !log[m].body.AuctionExtended?
    ensures var v, w := Fold(log[..m]), Fold(log[..n]);
            v.status != w.status || (v.status == Active && v.bidCount < w.bidCount)
  {
    hide Fold;
    FoldShape(log, m);
    FoldShape(log, n);
    if m > 0 && Fold(log[..n]).status == Active {
      CountRises(log, m, n);
    }
  }

  /** A status answer puts the store in step exactly if the version of its row is the number beside it, which the answer
      shows. An answer torn by any transactions between its two reads leaves the store out of step at the later number,
      and the events in between are then taken for old ones. */
  lemma StatusInStep(c: Client, t: nat, log: seq<Event>)
    requires WellNumbered(log) && ClientOk(c, log) && t in c.tasks && c.tasks[t].Answered?
    ensures var row, n, st := c.tasks[t].row, c.tasks[t].lastEventSeq, OnStatus(c, t, c.tasks[t]).store;
            && (InSync(st, log) <==> row.version == n)
            && st.lastSeq == n
            && (forall k | 0 <= k < n ::
                 ApplyEvent(st, log[k]).auction == st.auction && ApplyEvent(st, log[k]).lastSeq == n)
  {
    hide Fold;
    var p := c.tasks[t];
    assert TaskOk(p, c.store.lastSeq, log);
    if p.row.version == p.lastEventSeq {
      SnapshotInSync(c.store, c.connected, Snapshot(AuctionOf(p.row), p.lastEventSeq, 0), log);
    } else {
      MomentsDiffer(log, p.row.version, p.lastEventSeq);
    }
  }

  /** Reconnecting with the number `lastSeq`: what the gateway's three queries find, and what else the store folds and
      the server logs until it arrives, are free. It keeps the store in step exactly if it is a replay, which is when
      the replay works, the number is not 0 and the row query finds between 1 and 100 events after it, or if the store
      has already seen that very snapshot event. */
  lemma HandshakeKeepsSync(st: StoreState, atRange: seq<Event>, atRows: seq<Event>, atMax: seq<Event>, log: seq<Event>,
                           auctionId: int, lastSeq: int, replayFails: bool, snapshotFails: bool)
    requires WellNumbered(log) && InSync(st, log) && atRange <= atRows <= atMax <= log && 0 <= lastSeq <= st.lastSeq
    ensures var sent := Replay.ReplayOrSnapshot(atRange, atRows, atMax, auctionId, lastSeq, replayFails, snapshotFails);
            (InSync(ApplyAll(st, sent), log)
             <==> || (!replayFails && lastSeq > 0 && 1 <= |atRows| - lastSeq <= 100)
                  || SnapshotId(auctionId, if snapshotFails then 0 else |atMax|) in st.seen)
  {
    hide Replay.ReplayOrSnapshot;
    Replay.CompleteOrSnapshot(atRange, atRows, atMax, 1, auctionId, lastSeq, replayFails, snapshotFails);
    var sent := Replay.ReplayOrSnapshot(atRange, atRows, atMax, auctionId, lastSeq, replayFails, snapshotFails);
    if !replayFails && lastSeq > 0 && 1 <= |atRows| - lastSeq <= 100 {
      PageInSync(st, log, sent, lastSeq);
    } else {
      var n := if snapshotFails then 0 else |atMax|;
      assert sent == [Replay.SnapshotEvent(auctionId, n)];
      SnapshotEventInSync(st, Replay.SnapshotEvent(auctionId, n), log);
    }
  }

  lemma SnapshotEventInSync(st: StoreState, e: Event, log: seq<Event>)
    requires InSync(st, log) && e.body.Placeholder? && 0 <= e.eventSeq <= |log|
    ensures InSync(ApplyAll(st, [e]), log) <==> e.id in st.seen
  {
    assert [e][..0] == [] && ApplyAll(st, [e][..0]) == st;
  }
}
