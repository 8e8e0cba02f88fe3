/** A room of the WebSocket gateway: its event loop, one handler per case, over the send channels of its clients. */
module ClientRoom {
  import opened AuctionTypes

  const CAPACITY := 256
  const INTERVAL := 2 * SECOND

  /** A client's buffered send channel. `fromRoom` is what the room has put into it; the replay and the
      client's own answers go through the same buffer, and the writer drains it, without the room. */
  class Client {
    var queue: seq<Event>
    var closed: bool
    ghost var fromRoom: seq<Event>

    constructor ()
      ensures !closed && queue == [] && fromRoom == []
    {
      queue, closed, fromRoom := [], false, [];
    }

    method Close()
      requires !closed
      modifies this`closed
      ensures closed
    {
      closed := true;
    }

    /** The room's non-blocking send. */
    method TrySend(p: Event) returns (sent: bool)
      requires !closed
      modifies this`queue, this`fromRoom
      ensures sent == (|old(queue)| < 256)
      ensures queue == if sent then old(queue) + [p] else old(queue)
      ensures fromRoom == if sent then old(fromRoom) + [p] else old(fromRoom)
    {
      sent := |queue| < CAPACITY;
      if sent {
        queue := queue + [p];
        fromRoom := fromRoom + [p];
      }
    }
  }

  function Distance(x: int, y: int): nat {
    if x < y then y - x else x - y
  }

  /** The announced count is the real one or within two percent of it. */
  predicate CloseEnough(count: int, announced: int) {
    count == announced || 50 * Distance(count, announced) < announced
  }

  function ViewerEvent(auctionId: int, stamp: int, businessSeq: int, count: int, delta: int): Event {
    Event(ViewerId(auctionId, stamp), auctionId, businessSeq, ViewerCount(count, delta))
  }

  function DeltaSum(sent: seq<Event>): int {
    if sent == [] then 0
    else DeltaSum(sent[..|sent| - 1]) + if sent[|sent| - 1].body.ViewerCount? then sent[|sent| - 1].body.delta else 0
  }

  /** The count in the last announcement, 0 before the first. */
  function LastAnnounced(sent: seq<Event>): int {
    if sent == [] then 0
    else if sent[|sent| - 1].body.ViewerCount? then sent[|sent| - 1].body.viewerCount
    else LastAnnounced(sent[..|sent| - 1])
  }

  lemma DeltaSnoc(sent: seq<Event>, e: Event)
    ensures DeltaSum(sent + [e]) == DeltaSum(sent) + if e.body.ViewerCount? then e.body.delta else 0
    ensures LastAnnounced(sent + [e]) == if e.body.ViewerCount? then e.body.viewerCount else LastAnnounced(sent)
  {
    assert (sent + [e])[..|sent|] == sent;
  }

  predicate Due(lastAt: Option<int>, now: int) {
    lastAt.None? || now - lastAt.value >= INTERVAL
  }

  predicate Moved(lastAt: Option<int>, lastCount: int, current: int) {
    if lastAt.None? then true
    else if current == lastCount then false
    else if lastCount == 0 then true
    else Distance(current, lastCount) as real / lastCount as real >= 0.02
  }

  /** What a room knows about its announcements. */
  datatype Desk = Desk(businessSeq: int, count: int, at: Option<int>, dirty: bool, history: seq<Event>)

  predicate Announces(d: Desk, members: nat, now: int) {
    d.dirty && Due(d.at, now) && Moved(d.at, d.count, members)
  }

  /** What one attempt to announce does; `drops` when some client had no room for it. */
  function Attempt(d: Desk, auctionId: int, members: nat, drops: bool, now: int, stamp: int): Desk {
    if Announces(d, members, now) then
      Desk(d.businessSeq, members, Some(now), drops,
           d.history + [ViewerEvent(auctionId, stamp, d.businessSeq, members, members - d.count)])
    else d.(dirty := d.dirty && !Due(d.at, now))
  }

  ghost function WithRoom(members: set<Client>): (r: set<Client>)
    reads members
    ensures r <= members
  {
    set c | c in members && |c.queue| < CAPACITY
  }

  class Room {
    const auctionId: int
    var clients: set<Client>
    var lastBusinessSeq: int
    var lastCount: int
    var lastAt: Option<int>
    var dirty: bool

    /** All payloads the room has broadcast, and where in them each client came and went. */
    ghost var history: seq<Event>
    ghost var joined: map<Client, nat>
    ghost var gone: map<Client, nat>

    /** A registered client is listed exactly while its channel is open, and what the room has put into the
        channel is one contiguous run of the broadcasts, from its arrival to its departure. */
    ghost predicate Membership(c: Client)
      requires c in joined
      reads this`clients, this`history, this`joined, this`gone, c
    {
      && (c in clients <==> !c.closed)
      && (c in clients ==> joined[c] <= |history| && c.fromRoom == history[joined[c]..])
      && (c !in clients ==> c in gone && joined[c] <= gone[c] <= |history| && c.fromRoom == history[joined[c]..gone[c]])
    }

    ghost predicate Roster()
      reads this`clients, this`history, this`joined, this`gone, joined.Keys
    {
      clients <= joined.Keys && forall c | c in joined :: Membership(c)
    }

    /** The count announced last is the sum of the deltas so far, and close to the real one
        unless the room is dirty. */
    ghost predicate Counted()
      reads this`clients, this`lastCount, this`lastAt, this`dirty, this`history
    {
      && LastAnnounced(history) == DeltaSum(history) == lastCount >= 0
      && (lastAt.None? ==> lastCount == 0)
      && (!dirty ==> lastAt.Some? && CloseEnough(|clients|, lastCount))
    }

    ghost predicate Valid()
      reads this, joined.Keys
    {
      Roster() && Counted()
    }

    constructor (auctionId: int)
      ensures Valid() && clients == {} && history == [] && joined == map[] && dirty && lastAt == None
      ensures this.auctionId == auctionId && lastBusinessSeq == 0
    {
      this.auctionId := auctionId;
      clients, lastBusinessSeq, lastCount, lastAt, dirty := {}, 0, 0, None, true;
      history, joined, gone := [], map[], map[];
    }

    /** What offering a payload does to one client. */
    twostate predicate Offered(c: Client, p: Event)
      reads c
    {
      if |old(c.queue)| < CAPACITY then !c.closed && c.fromRoom == old(c.fromRoom) + [p]
      else c.closed && c.fromRoom == old(c.fromRoom)
    }

    /** Sends to one client, or closes and drops it if its buffer is full. */
    method Offer(c: Client, p: Event)
      requires c in clients && !c.closed
      modifies this`clients, this`dirty, this`gone, c
      ensures Offered(c, p)
      ensures |old(c.queue)| < CAPACITY ==> clients == old(clients) && dirty == old(dirty) && gone == old(gone)
      ensures |old(c.queue)| >= CAPACITY ==> clients == old(clients) - {c} && dirty && gone == old(gone)[c := |history|]
    {
      var sent := c.TrySend(p);
      if !sent {
        c.Close();
        clients := clients - {c};
        dirty := true;
        gone := gone[c := |history|];
      }
    }

    method OfferAll(p: Event)
      requires forall c | c in clients :: !c.closed
      modifies this`clients, this`dirty, this`gone, clients
      ensures clients == old(WithRoom(clients))
      ensures dirty == (old(dirty) || clients != old(clients))
      ensures forall c | c in old(clients) :: Offered(c, p)
      ensures forall c | c in old(clients) && c !in clients :: c in gone && gone[c] == |history|
      ensures forall c | c in old(gone) && c !in old(clients) :: c in gone && gone[c] == old(gone)[c]
    {
      var todo := clients;
      while todo != {}
        modifies this`clients, this`dirty, this`gone, old(clients)
        invariant todo <= old(clients) && clients <= old(clients)
        invariant forall c | c in old(clients) :: c in clients <==> c in todo || |old(c.queue)| < CAPACITY
        invariant dirty == (old(dirty) || clients != old(clients))
        invariant forall c | c in todo :: unchanged(c)
        invariant forall c | c in old(clients) && c !in todo :: Offered(c, p)
        invariant forall c | c in old(clients) && c !in clients :: c in gone && gone[c] == |history|
        invariant forall c | c in old(gone) && c !in old(clients) :: c in gone && gone[c] == old(gone)[c]
      {
        var c :| c in todo;
        Offer(c, p);
        todo := todo - {c};
      }
    }

    /** Sends to every client that has room; the others are closed and dropped. */
    method BroadcastPayload(p: Event)
      requires Roster()
      modifies this`clients, this`dirty, this`history, this`gone, clients
      ensures clients == old(WithRoom(clients))
      ensures dirty == (old(dirty) || clients != old(clients))
      ensures history == old(history) + [p]
      ensures Roster()
    {
      assert forall c | c in clients :: c in joined && Membership(c);
      OfferAll(p);
      history := history + [p];
      forall c | c in joined
        ensures Membership(c)
      {
        assert old(Membership(c));
        assert c in old(clients) ==> Offered(c, p);
      }
    }

    method BroadcastEvent(e: Event)
      requires Roster()
      modifies this`lastBusinessSeq, this`clients, this`dirty, this`history, this`gone, clients
      ensures clients == old(WithRoom(clients))
      ensures dirty == (old(dirty) || clients != old(clients))
      ensures history == old(history) + [e]
      ensures lastBusinessSeq == if !e.body.ViewerCount? && e.eventSeq > old(lastBusinessSeq) then e.eventSeq
                                 else old(lastBusinessSeq)
      ensures Roster()
    {
      if !e.body.ViewerCount? && e.eventSeq > lastBusinessSeq {
        lastBusinessSeq := e.eventSeq;
      }
      BroadcastPayload(e);
    }

    ghost function AtDesk(): Desk
      reads this
    {
      Desk(lastBusinessSeq, lastCount, lastAt, dirty, history)
    }

    /** Announces the count if it is due and has moved enough. */
    method MaybeBroadcastViewerCount(now: int, stamp: int)
      requires Valid()
      modifies this, clients
      ensures Valid() && joined == old(joined)
      ensures AtDesk() == Attempt(old(AtDesk()), auctionId, |old(clients)|,
                                  old(WithRoom(clients) != clients), now, stamp)
      ensures clients == if Announces(old(AtDesk()), |old(clients)|, now) then old(WithRoom(clients)) else old(clients)
    {
      if !dirty {
        return;
      }
      if !Due(lastAt, now) {
        return;
      }
      var current := |clients|;
      if !Moved(lastAt, lastCount, current) {
        MovedExactly(lastAt, lastCount, current);
        dirty := false;
        return;
      }
      Announce(current, now, stamp);
    }

    method Announce(current: nat, now: int, stamp: int)
      requires Valid() && current == |clients|
      modifies this, clients
      ensures Valid() && joined == old(joined) && clients == old(WithRoom(clients))
      ensures AtDesk() == Desk(old(lastBusinessSeq), current, Some(now), old(WithRoom(clients) != clients),
                               old(history) + [ViewerEvent(auctionId, stamp, old(lastBusinessSeq),
                                                             current, current - old(lastCount))])
    {
      hide Membership, Moved, Due;
      var delta := current - lastCount;
      lastCount := current;
      lastAt := Some(now);
      dirty := false;
      DeltaSnoc(history, ViewerEvent(auctionId, stamp, lastBusinessSeq, current, delta));
      BroadcastEvent(ViewerEvent(auctionId, stamp, lastBusinessSeq, current, delta));
    }

    /** Lists a new client. */
    method Admit(c: Client)
      requires Valid() && c !in joined && !c.closed && c.fromRoom == []
      modifies this`joined, this`clients, this`dirty
      ensures Valid() && joined == old(joined)[c := |history|] && clients == old(clients) + {c} && dirty
    {
      joined := joined[c := |history|];
      clients := clients + {c};
      dirty := true;
      forall d | d in joined
        ensures Membership(d)
      {
        assert d != c ==> old(Membership(d));
      }
    }

    method Register(c: Client, now: int, stamp: int)
      requires Valid() && c !in joined && !c.closed && c.fromRoom == []
      modifies this, clients, c
      ensures Valid() && joined == old(joined)[c := |old(history)|]
      ensures var was, members := old(AtDesk()).(dirty := true), old(clients) + {c};
              && AtDesk() == Attempt(was, auctionId, |members|, old(WithRoom(clients + {c}) != clients + {c}),
                                     now, stamp)
              && clients == if Announces(was, |members|, now) then old(WithRoom(clients + {c})) else members
    {
      hide Attempt, Announces, WithRoom;
      Admit(c);
      assert WithRoom(clients) == old(WithRoom(clients + {c}));
      MaybeBroadcastViewerCount(now, stamp);
    }

    /** Takes a listed client off and closes its channel. */
    method Remove(c: Client)
      requires Roster() && c in clients
      modifies this`clients, this`gone, c
      ensures Roster() && c.closed && clients == old(clients) - {c}
    {
      assert Membership(c);
      clients := clients - {c};
      c.Close();
      gone := gone[c := |history|];
      forall d | d in joined
        ensures Membership(d)
      {
        assert old(Membership(d));
      }
    }

    method Unregister(c: Client, now: int, stamp: int)
      requires Valid()
      modifies this, clients
      ensures Valid() && joined == old(joined) && c !in clients
      ensures c in old(clients) ==>
                var was, members := old(AtDesk()).(dirty := true), old(clients) - {c};
                && AtDesk() == Attempt(was, auctionId, |members|, old(WithRoom(clients - {c}) != clients - {c}),
                                       now, stamp)
                && clients == if Announces(was, |members|, now) then old(WithRoom(clients - {c})) else members
      ensures c !in old(clients) ==> unchanged(this) && forall d | d in old(clients) :: unchanged(d)
    {
      hide Attempt, Announces, WithRoom, Membership;
      if c in clients {
        Remove(c);
        dirty := true;
        assert WithRoom(clients) == old(WithRoom(clients - {c}));
        MaybeBroadcastViewerCount(now, stamp);
      }
    }

    /** A business event: the publisher hands over outbox rows, and no outbox row is a viewer count. */
    method OnEvent(e: Event)
      requires Valid() && !e.body.ViewerCount?
      modifies this, clients
      ensures Valid() && joined == old(joined)
      ensures clients == old(WithRoom(clients))
      ensures history == old(history) + [e]
      ensures lastBusinessSeq == if e.eventSeq > old(lastBusinessSeq) then e.eventSeq else old(lastBusinessSeq)
      ensures lastCount == old(lastCount) && lastAt == old(lastAt) && dirty == (old(dirty) || clients != old(clients))
    {
      DeltaSnoc(history, e);
      BroadcastEvent(e);
    }

    method OnTick(now: int, stamp: int)
      requires Valid()
      modifies this, clients
      ensures Valid() && joined == old(joined)
      ensures AtDesk() == Attempt(old(AtDesk()), auctionId, |old(clients)|,
                                  old(WithRoom(clients) != clients), now, stamp)
      ensures clients == if Announces(old(AtDesk()), |old(clients)|, now) then old(WithRoom(clients)) else old(clients)
    {
      MaybeBroadcastViewerCount(now, stamp);
    }

    /** The context is cancelled: every remaining channel is closed, once. */
    method Stop()
      requires Valid()
      modifies this, clients
      ensures clients == {} && history == old(history) && joined == old(joined)
      ensures Roster() && forall c | c in joined :: c.closed
    {
      while clients != {}
        modifies this`clients, this`gone, old(clients)
        invariant clients <= old(clients) && Roster()
      {
        var c :| c in clients;
        Remove(c);
      }
      assert forall c | c in joined :: Membership(c);
    }
  }

  /** The floating-point test for a change of two percent, on counts. */
  lemma TwoPercent(count: int, announced: int)
    requires announced > 0
    ensures Distance(count, announced) as real / announced as real >= 0.02
            <==> 50 * Distance(count, announced) >= announced
  {
    Quotient(Distance(count, announced) as real, announced as real);
    assert (50 * Distance(count, announced)) as real == 50.0 * (Distance(count, announced) as real);
  }

  lemma Quotient(d: real, a: real)
    requires a > 0.0
    ensures d / a >= 0.02 <==> 50.0 * d >= a
  {
    var q := d / a;
    Scaled(q, 0.02, a);
    Scaled(0.02, q, a);
  }

  lemma Scaled(x: real, y: real, a: real)
    requires a > 0.0
    ensures x <= y ==> x * a <= y * a
    ensures x < y ==> x * a < y * a
  {
    var z := y - x;
    assert z > 0.0 ==> z * a > 0.0;
    assert (x + z) * a == x * a + z * a;
  }

  /** A count is announced for a first time or a real change: exactly when it is not close to the announced one. */
  lemma MovedExactly(lastAt: Option<int>, lastCount: int, count: int)
    requires count >= 0 && lastCount >= 0
    ensures Moved(lastAt, lastCount, count) <==> lastAt.None? || !CloseEnough(count, lastCount)
  {
    if lastCount > 0 {
      TwoPercent(count, lastCount);
    }
  }

  /** A dirty room announces at once the first time, and then a real change once two seconds have passed; each
      announcement carries the number of members, the change since the last one, and the number of the last business
      event. */
  lemma AttemptTells(d: Desk, auctionId: int, members: nat, drops: bool, now: int, stamp: int)
    requires d.count >= 0
    ensures Announces(d, members, now)
            <==> && d.dirty
                 && (d.at.None? || (now - d.at.value >= 2_000_000_000 && !CloseEnough(members, d.count)))
    ensures var d' := Attempt(d, auctionId, members, drops, now, stamp);
            && (Announces(d, members, now) ==>
                 && d'.at == Some(now) && d'.count == members && |d'.history| == |d.history| + 1
                 && d'.history[|d.history|].body == ViewerCount(members, members - d.count)
                 && d'.history[|d.history|].eventSeq == d.businessSeq && d'.history[|d.history|].auctionId == auctionId)
            && (!Announces(d, members, now) ==> d'.at == d.at && d'.count == d.count && d'.history == d.history)
            && (d'.dirty <==> if Announces(d, members, now) then drops else d.dirty && !Due(d.at, now))
            && d'.businessSeq == d.businessSeq
  {
    MovedExactly(d.at, d.count, members);
  }
}
