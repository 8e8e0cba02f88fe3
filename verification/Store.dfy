/** The client's store: how it applies events and status snapshots, and what it means for it to agree with
    the server's log. */
module ClientStore {
  import opened AuctionTypes
  import Replay

  /** The auction object of the store; one received as a part of an auction leaves its other fields unset. */
  datatype ClientAuction = ClientAuction(
    status: Option<Status>,
    currentPrice: Option<int>,
    leader: Option<int>,
    endTime: Option<int>,
    bidCount: Option<int>)

  datatype EndPanel = EndPanel(open: bool, winner: Option<int>, finalPrice: Option<int>, orderId: Option<int>)

  datatype StoreState = StoreState(auction: Option<ClientAuction>, lastSeq: int, seen: set<EventId>,
                                   viewers: int, ended: EndPanel)

  const INITIAL := StoreState(None, 0, {}, 0, EndPanel(false, None, None, None))

  /** The answer of the status request. */
  datatype Snapshot = Snapshot(auction: ClientAuction, lastEventSeq: int, viewers: int)

  function FromSummary(status: Status, a: Summary): ClientAuction {
    ClientAuction(Some(status), Some(a.currentPrice), None, Some(a.endTime), None)
  }

  function BidCountOf(a: ClientAuction): int {
    if a.bidCount.Some? then a.bidCount.value else 0
  }

  /** The auction after an event that the store folds in. */
  function AuctionAfter(auction: Option<ClientAuction>, body: Body): Option<ClientAuction> {
    match body
    case AuctionStarted(a) => Some(FromSummary(Active, a))
    case AuctionEnded(Some(a), _, _, _) => Some(FromSummary(Ended, a))
    case _ =>
      if auction.None? then None else
      var a := auction.value;
      match body
      case BidUpdate(_, price, leader, _) =>
        Some(a.(currentPrice := Some(price), leader := Some(leader), bidCount := Some(BidCountOf(a) + 1)))
      case AuctionExtended(newEnd, _) => Some(a.(endTime := Some(newEnd)))
      case AuctionEnded(_, _, _, _) => Some(a.(status := Some(Ended)))
      case AuctionCancelled => Some(a.(status := Some(Cancelled)))
      case _ => auction
  }

  /** The placeholder that the gateway sends as a snapshot carries an auction with nothing but an id. */
  const EMPTY_AUCTION := ClientAuction(None, None, None, None, None)

  function ApplyEvent(st: StoreState, e: Event): StoreState {
    if e.id in st.seen then st else
    var seen := st.seen + {e.id};
    match e.body
    case ViewerCount(n, _) => st.(viewers := n, seen := seen)
    case Placeholder => st.(auction := Some(EMPTY_AUCTION), lastSeq := e.eventSeq, seen := seen)
    case _ =>
      if e.eventSeq <= st.lastSeq then st.(seen := seen)
      else st.(auction := AuctionAfter(st.auction, e.body), lastSeq := e.eventSeq, seen := seen,
               ended := match e.body
                        case AuctionEnded(_, winner, finalPrice, orderId) => EndPanel(true, winner, finalPrice, orderId)
                        case _ => st.ended)
  }

  /** The live viewer count is kept while connected; everything else is replaced. */
  function ApplySnapshot(st: StoreState, connected: bool, snap: Snapshot): StoreState {
    StoreState(Some(snap.auction), snap.lastEventSeq, {},
               if connected && st.viewers > 0 then st.viewers else snap.viewers,
               EndPanel(snap.auction.status == Some(Ended), snap.auction.leader,
                        if snap.auction.status == Some(Ended) then snap.auction.currentPrice else None, None))
  }

  function ApplyAll(st: StoreState, events: seq<Event>): StoreState {
    if events == [] then st else ApplyEvent(ApplyAll(st, events[..|events| - 1]), events[|events| - 1])
  }

  class AuctionStore {
    var auction: Option<ClientAuction>
    var lastSeq: int
    var seen: set<EventId>
    var viewers: int
    var ended: EndPanel
    var connected: bool

    ghost function State(): StoreState
      reads this
    {
      StoreState(auction, lastSeq, seen, viewers, ended)
    }

    constructor ()
      ensures State() == INITIAL && !connected
    {
      auction, lastSeq, seen, viewers, ended, connected := None, 0, {}, 0, EndPanel(false, None, None, None), false;
    }

    method SetConnected(c: bool)
      modifies this`connected
      ensures connected == c
    {
      connected := c;
    }

    method ReplaceBySnapshot(snap: Snapshot)
      modifies this
      ensures State() == ApplySnapshot(old(State()), connected, snap) && connected == old(connected)
    {
      if !connected || viewers <= 0 {
        viewers := snap.viewers;
      }
      auction, lastSeq, seen := Some(snap.auction), snap.lastEventSeq, {};
      var isOver := snap.auction.status == Some(Ended);
      ended := EndPanel(isOver, snap.auction.leader, if isOver then snap.auction.currentPrice else None, None);
    }

    method HandleEvent(e: Event)
      modifies this
      ensures State() == ApplyEvent(old(State()), e) && connected == old(connected)
    {
      if e.id in seen {
        return;
      }
      seen := seen + {e.id};
      if e.body.ViewerCount? {
        viewers := e.body.viewerCount;
        return;
      }
      if e.eventSeq <= lastSeq && !e.body.Placeholder? {
        return;
      }
      lastSeq := e.eventSeq;
      match e.body
      case Placeholder => auction := Some(EMPTY_AUCTION);
      case BidUpdate(_, price, leader, _) =>
        if auction.Some? {
          auction := Some(auction.value.(currentPrice := Some(price), leader := Some(leader),
                                         bidCount := Some(BidCountOf(auction.value) + 1)));
        }
      case AuctionExtended(newEnd, _) =>
        if auction.Some? {
          auction := Some(auction.value.(endTime := Some(newEnd)));
        }
      case AuctionStarted(a) => auction := Some(FromSummary(Active, a));
      case AuctionEnded(final, winner, finalPrice, orderId) =>
        if final.Some? {
          auction := Some(FromSummary(Ended, final.value));
        } else if auction.Some? {
          auction := Some(auction.value.(status := Some(Ended)));
        }
        ended := EndPanel(true, winner, finalPrice, orderId);
      case AuctionCancelled =>
        if auction.Some? {
          auction := Some(auction.value.(status := Some(Cancelled)));
        }
      case ViewerCount(_, _) =>
    }

    /** Applies one page of a compensation and moves its cursor. */
    method HandlePage(cursor: int, events: seq<Event>) returns (next: int)
      modifies this
      ensures State() == ApplyAll(old(State()), events) && connected == old(connected)
      ensures next == Replay.Cursor(cursor, events)
    {
      next := cursor;
      var i := 0;
      while i < |events|
        invariant 0 <= i <= |events|
        invariant State() == ApplyAll(old(State()), events[..i]) && connected == old(connected)
        invariant next == Replay.Cursor(cursor, events[..i])
      {
        assert events[..i + 1][..i] == events[..i];
        HandleEvent(events[i]);
        if !events[i].body.ViewerCount? {
          next := if events[i].eventSeq > next then events[i].eventSeq else next;
        }
        i := i + 1;
      }
      assert events[..|events|] == events;
    }
  }

  // ---- agreement with the log ----

  /** What the store must show of an auction whose events fold to `v`: status, price, and the leader or, once
      ended, the winner; while active also the deadline and the bid count. Without an auction object nothing
      has started. */
  predicate Agrees(st: StoreState, v: View) {
    match st.auction
    case None => v.price == None
    case Some(a) =>
      && a.status == Some(v.status)
      && (v.price.Some? ==>
           && a.currentPrice == v.price
           && (if v.status == Ended then st.ended.winner == v.winner else a.leader == v.leader))
      && (v.status == Active ==> a.endTime == Some(v.endTime) && BidCountOf(a) == v.bidCount)
  }

  /** What the end panel must show: it is open once the auction has ended, with the winner; a panel opened by a status
      answer shows the last price, and does not know the order. */
  predicate PanelAgrees(panel: EndPanel, v: View) {
    && (panel.open <==> v.status == Ended)
    && (v.status == Ended ==>
         && panel.winner == v.winner
         && (panel.finalPrice == v.finalPrice || panel.finalPrice == v.price)
         && (panel.orderId == v.orderId || panel.orderId == None))
  }

  /** The number in a business event's id. */
  function SeqOf(id: EventId): int {
    match id
    case Scoped(_, n) => n
    case Bare(n) => n
    case ViewerId(_, _) => 0
    case SnapshotId(_, n) => n
  }

  /** The store shows exactly the events 1..lastSeq of the log and remembers no id of a later one. */
  predicate InSync(st: StoreState, log: seq<Event>) {
    && 0 <= st.lastSeq <= |log|
    && Agrees(st, Fold(log[..st.lastSeq]))
    && PanelAgrees(st.ended, Fold(log[..st.lastSeq]))
    && (forall id | id in st.seen :: SeqOf(id) <= st.lastSeq)
  }

  lemma {:induction false} FoldShape(log: seq<Event>, n: nat)
    requires WellNumbered(log) && n <= |log|
    ensures var v := Fold(log[..n]);
            && (v.price == None <==> n == 0 || log[0].body.AuctionCancelled?)
            && (v.status == Pending <==> n == 0)
            && (v.status == Active <==> n > 0 && !log[n - 1].body.AuctionEnded? && !log[n - 1].body.AuctionCancelled?)
  {
    if n > 0 {
      FoldShape(log, n - 1);
      assert log[..n][..n - 1] == log[..n - 1];
    }
  }

  /** Only what has started can end. */
  lemma EndedHasPrice(log: seq<Event>, n: nat)
    requires WellNumbered(log) && n <= |log| && Fold(log[..n]).status == Ended
    ensures Fold(log[..n]).price.Some?
  {
    FoldShape(log, n);
    if log[0].body.AuctionCancelled? {
      assert log[..1] == [] + [log[0]];
      FoldSnoc([], log[0]);
    }
  }

  /** Folding in the very next event keeps the store in step; an end opens the panel with the outcome that the log
      tells, and nothing else touches it. */
  lemma NextEventInSync(st: StoreState, log: seq<Event>)
    requires WellNumbered(log) && InSync(st, log) && st.lastSeq < |log|
    ensures var e := log[st.lastSeq];
            var v := Fold(log[..st.lastSeq + 1]);
            && ApplyEvent(st, e).lastSeq == st.lastSeq + 1
            && InSync(ApplyEvent(st, e), log)
            && ApplyEvent(st, e).ended
               == if e.body.AuctionEnded? then EndPanel(true, v.winner, v.finalPrice, v.orderId) else st.ended
  {
    var n := st.lastSeq;
    var e := log[n];
    FoldShape(log, n);
    FoldShape(log, n + 1);
    assert log[..n + 1] == log[..n] + [e];
    FoldSnoc(log[..n], e);
    assert SeqOf(e.id) == n + 1;
  }

  /** An event that is not new, or a viewer count, leaves the shown auction alone. */
  lemma OldEventInSync(st: StoreState, log: seq<Event>, e: Event)
    requires InSync(st, log)
    requires (e in log && WellNumbered(log) && e.eventSeq <= st.lastSeq) || (e.body.ViewerCount? && e.id.ViewerId?)
    ensures ApplyEvent(st, e).lastSeq == st.lastSeq && InSync(ApplyEvent(st, e), log)
  {
  }

  /** An event counts once, however often it arrives: whatever becomes of it, it is remembered. */
  lemma TwiceIsOnce(st: StoreState, e: Event)
    ensures ApplyEvent(st, e).seen == st.seen + {e.id}
    ensures ApplyEvent(ApplyEvent(st, e), e) == ApplyEvent(st, e)
  {
  }

  /** A viewer count is shown and touches nothing else. */
  lemma ViewersAreShown(st: StoreState, e: Event)
    requires e.body.ViewerCount? && e.id !in st.seen
    ensures var st' := ApplyEvent(st, e);
            && st'.viewers == e.body.viewerCount
            && st'.auction == st.auction && st'.lastSeq == st.lastSeq && st'.ended == st.ended
  {
  }

  /** A status answer forgets what was seen, and takes over the viewer count only when no live one is known. */
  lemma SnapshotStartsOver(st: StoreState, connected: bool, snap: Snapshot, e: Event)
    ensures var st' := ApplySnapshot(st, connected, snap);
            && e.id !in st'.seen && st'.lastSeq == snap.lastEventSeq && st'.auction == Some(snap.auction)
            && (connected && st.viewers > 0 ==> st'.viewers == st.viewers)
            && (!connected || st.viewers <= 0 ==> st'.viewers == snap.viewers)
            && (st'.ended.open <==> snap.auction.status == Some(Ended)) && st'.ended.orderId == None
  {
  }

  /** A gap: folding in any later event moves the number past events that the store never sees. */
  lemma GapIsFolded(st: StoreState, log: seq<Event>, n: nat)
    requires WellNumbered(log) && InSync(st, log) && st.lastSeq < n < |log|
    ensures ApplyEvent(st, log[n]).lastSeq == n + 1 > st.lastSeq + 1
  {
    assert SeqOf(log[n].id) == n + 1;
  }

  /** A snapshot read from one state of the log brings the store in step with it. */
  lemma SnapshotInSync(st: StoreState, connected: bool, snap: Snapshot, log: seq<Event>)
    requires 0 <= snap.lastEventSeq <= |log|
    requires SnapshotOf(snap.auction, Fold(log[..snap.lastEventSeq]))
    ensures InSync(ApplySnapshot(st, connected, snap), log)
  {
  }

  /** The auction object of a status answer, read when the events folded to `v`. */
  predicate SnapshotOf(a: ClientAuction, v: View) {
    && a.status == Some(v.status)
    && (v.price.Some? ==> a.currentPrice == v.price && a.leader == v.leader)
    && (v.status == Ended ==> v.winner == v.leader && v.price.Some?)
    && (v.status == Active ==> a.endTime == Some(v.endTime) && BidCountOf(a) == v.bidCount)
  }

  /** Longer logs leave the store in step. */
  lemma GrowthInSync(st: StoreState, log: seq<Event>, log': seq<Event>)
    requires InSync(st, log) && log <= log'
    ensures InSync(st, log')
  {
    assert log'[..st.lastSeq] == log[..st.lastSeq];
  }

  // ---- pages ----

  /** The events a <= number <= b of a log. */
  predicate IsRun(log: seq<Event>, events: seq<Event>, a: nat) {
    a + |events| <= |log| && events == log[a..a + |events|]
  }

  /** Every event of the page that moves the store is its very next one. */
  predicate GapFree(st: StoreState, events: seq<Event>) {
    events == [] ||
      (var front := events[..|events| - 1];
       var st1 := ApplyAll(st, front);
       GapFree(st, front) &&
       (ApplyEvent(st1, events[|events| - 1]).lastSeq == st1.lastSeq
        || ApplyEvent(st1, events[|events| - 1]).lastSeq == st1.lastSeq + 1))
  }

  /** A page that starts no later than the store's next event is folded without a gap, whatever part of it
      the store already has; afterwards the store has all of it. */
  lemma {:induction false} PageInSync(st: StoreState, log: seq<Event>, events: seq<Event>, a: nat)
    requires WellNumbered(log) && InSync(st, log) && IsRun(log, events, a) && a <= st.lastSeq
    ensures var st' := ApplyAll(st, events);
            && InSync(st', log) && GapFree(st, events)
            && st'.lastSeq == (if a + |events| > st.lastSeq then a + |events| else st.lastSeq)
    decreases |events|
  {
    if events != [] {
      var n := |events| - 1;
      PageInSync(st, log, events[..n], a);
      var st1 := ApplyAll(st, events[..n]);
      assert events[n] == log[a + n];
      if a + n == st1.lastSeq {
        NextEventInSync(st1, log);
      } else {
        OldEventInSync(st1, log, events[n]);
      }
    }
  }

  /** And only then: a page that starts later leaves a gap. */
  lemma LatePageLeavesGap(st: StoreState, log: seq<Event>, events: seq<Event>, a: nat)
    requires WellNumbered(log) && InSync(st, log) && IsRun(log, events, a) && events != []
    ensures GapFree(st, events) <==> a <= st.lastSeq
  {
    if a <= st.lastSeq {
      PageInSync(st, log, events, a);
    } else {
      assert events[..1] == [log[a]];
      assert events[..1][..0] == [];
      GapIsFolded(st, log, a);
      FirstGap(st, events, 1);
    }
  }

  lemma {:induction false} FirstGap(st: StoreState, events: seq<Event>, n: nat)
    requires n <= |events| && !GapFree(st, events[..n])
    ensures !GapFree(st, events)
    decreases |events|
  {
    if n < |events| {
      assert events[..|events| - 1][..n] == events[..n];
      FirstGap(st, events[..|events| - 1], n);
    } else {
      assert events[..n] == events;
    }
  }

  // ---- the gateway's snapshot event ----

  /** After the gateway's placeholder the store claims to be at its number but shows nothing of the auction. */
  lemma PlaceholderWipes(st: StoreState, log: seq<Event>, auctionId: int)
    requires var e := Event(SnapshotId(auctionId, |log|), auctionId, |log|, Placeholder); e.id !in st.seen
    ensures var e := Event(SnapshotId(auctionId, |log|), auctionId, |log|, Placeholder);
            && ApplyEvent(st, e).lastSeq == |log|
            && !Agrees(ApplyEvent(st, e), Fold(log))
  {
  }
}
