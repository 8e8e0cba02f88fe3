/** The rows and events that the auction server, its outbox and its clients share.
    Users are their ids, money is an unbounded integer number of cents, and instants
    and durations are integers in nanoseconds. */
module AuctionTypes {
  datatype Option<+T> = None | Some(value: T)

  const SECOND: int := 1_000_000_000

  /** What happened to a COMMIT: it succeeded, or an error was reported although it may have been applied. */
  datatype CommitOutcome = Committed | Lost(applied: bool)

  datatype Status = Pending | Active | Ended | Cancelled

  /** The columns of `auctions` that the seller sets. */
  datatype Config = Config(
    sellerId: int,
    startPrice: int,
    priceStep: int,
    ceilingPrice: Option<int>,
    startTime: int,
    originalEndTime: int,
    extendSeconds: int,
    extendThreshold: int)

  /** A row of `auctions`, without the columns that no rule reads. */
  datatype Auction = Auction(
    config: Config,
    status: Status,
    currentPrice: int,
    leaderId: Option<int>,
    bidCount: int,
    endTime: int,
    version: nat)

  /** An accepted row of `bids`. */
  datatype Bid = Bid(id: int, auctionId: int, userId: int, amount: int, key: string)

  /** A row of `orders`; the table is keyed by its unique auction id. */
  datatype Order = Order(id: int, winnerId: int, sellerId: int, finalPrice: int)

  /** What a successful bid answers, and what is stored for a repeat of it. */
  datatype BidResult = BidResult(
    bid: Bid,
    auctionVersion: int,
    currentPrice: int,
    currentLeader: int,
    extended: bool,
    newEndTime: int,
    serverTime: int,
    ceilingHit: bool,
    orderId: Option<int>)

  /** The identifiers found in event envelopes: `evt_<auction>_<seq>`, the cancel event's
      `evt_<seq>`, `evt_viewer_<auction>_<nanos>` and `evt_snapshot_<auction>_<seq>`. */
  datatype EventId =
    | Scoped(auctionId: int, eventSeq: int)
    | Bare(eventSeq: int)
    | ViewerId(auctionId: int, stamp: int)
    | SnapshotId(auctionId: int, eventSeq: int)

  /** The auction object carried by start and worker-end events; its status is that of the event. */
  datatype Summary = Summary(currentPrice: int, endTime: int)

  datatype Body =
    | AuctionStarted(auction: Summary)
    | BidUpdate(auctionVersion: int, currentPrice: int, currentLeader: int, latestBid: Bid)
    | AuctionExtended(newEndTime: int, extendedSeconds: int)
    | AuctionEnded(final: Option<Summary>, winner: Option<int>, finalPrice: Option<int>, orderId: Option<int>)
    | AuctionCancelled
    | ViewerCount(viewerCount: int, delta: int)
    | Placeholder

  /** The event envelope, as stored in the outbox and sent to clients. */
  datatype Event = Event(id: EventId, auctionId: int, eventSeq: int, body: Body)

  /** The content of one auction as its events tell it. `price` is unknown until the start event. */
  datatype View = View(
    status: Status,
    price: Option<int>,
    leader: Option<int>,
    bidCount: int,
    endTime: int,
    winner: Option<int>,
    finalPrice: Option<int>,
    orderId: Option<int>)

  const BLANK := View(Pending, None, None, 0, 0, None, None, None)

  function Apply(v: View, e: Event): View {
    match e.body
    case AuctionStarted(a) => View(Active, Some(a.currentPrice), None, 0, a.endTime, None, None, None)
    case BidUpdate(_, price, leader, _) => v.(price := Some(price), leader := Some(leader), bidCount := v.bidCount + 1)
    case AuctionExtended(newEnd, _) => v.(endTime := newEnd)
    case AuctionEnded(final, winner, finalPrice, orderId) =>
      v.(status := Ended, price := if final.Some? then Some(final.value.currentPrice) else v.price,
         winner := winner, finalPrice := finalPrice, orderId := orderId)
    case AuctionCancelled => v.(status := Cancelled)
    case ViewerCount(_, _) => v
    case Placeholder => v
  }

  /** Replays a log from nothing. */
  function Fold(log: seq<Event>): View {
    if log == [] then BLANK else Apply(Fold(log[..|log| - 1]), log[|log| - 1])
  }

  lemma FoldSnoc(log: seq<Event>, e: Event)
    ensures Fold(log + [e]) == Apply(Fold(log), e)
  {
    assert (log + [e])[..|log|] == log;
  }

  function CountExtended(log: seq<Event>): nat {
    if log == [] then 0
    else CountExtended(log[..|log| - 1]) + if log[|log| - 1].body.AuctionExtended? then 1 else 0
  }

  lemma CountSnoc(log: seq<Event>, e: Event)
    ensures CountExtended(log + [e]) == CountExtended(log) + if e.body.AuctionExtended? then 1 else 0
  {
    assert (log + [e])[..|log|] == log;
  }

  predicate Terminal(e: Event) {
    e.body.AuctionEnded? || e.body.AuctionCancelled?
  }

  predicate Begun(log: seq<Event>) {
    log != [] && log[0].body.AuctionStarted?
  }

  /** Numbered 1, 2, 3, ...; opened by a start or a cancel, closed by at most one end or cancel. */
  predicate WellNumbered(log: seq<Event>) {
    forall i | 0 <= i < |log| ::
      && log[i].eventSeq == i + 1
      && IdOk(log[i])
      && !log[i].body.ViewerCount? && !log[i].body.Placeholder?
      && (log[i].body.AuctionStarted? ==> i == 0)
      && (Terminal(log[i]) ==> i == |log| - 1)
      && (i == 0 ==> log[i].body.AuctionStarted? || log[i].body.AuctionCancelled?)
  }

  /** The id that the server gives the event `seq` of an auction: cancel events omit the auction. */
  predicate IdOk(e: Event) {
    e.id == if e.body.AuctionCancelled? then Bare(e.eventSeq) else Scoped(e.auctionId, e.eventSeq)
  }
}
