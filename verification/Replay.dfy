/** Replay from the outbox: one page of events after a number, and what a reconnecting client is sent. */
module Replay {
  import opened AuctionTypes

  const DEFAULT_LIMIT := 100
  const MAX_LIMIT := 500
  const WINDOW := 1000

  datatype ReplayResult = ReplayResult(events: seq<Event>, hasMore: bool, snapshotRequired: bool)

  function NormalizeLimit(limit: int): nat {
    if limit <= 0 then DEFAULT_LIMIT else if limit > MAX_LIMIT then MAX_LIMIT else limit
  }

  /** An auction's stored events, as far back as they are kept: consecutive numbers from `lo`. */
  predicate Numbered(log: seq<Event>, lo: int) {
    lo >= 1 && forall i | 0 <= i < |log| :: log[i].eventSeq == lo + i && !log[i].body.ViewerCount?
  }

  // ---- the two queries ----

  function MinSeq(log: seq<Event>): int
    requires log != []
  {
    var last := log[|log| - 1].eventSeq;
    if |log| == 1 || last <= MinSeq(log[..|log| - 1]) then last else MinSeq(log[..|log| - 1])
  }

  function MaxSeq(log: seq<Event>): int
    requires log != []
  {
    var last := log[|log| - 1].eventSeq;
    if |log| == 1 || last >= MaxSeq(log[..|log| - 1]) then last else MaxSeq(log[..|log| - 1])
  }

  /** The rows numbered above `afterSeq`, in order. */
  function Above(log: seq<Event>, afterSeq: int): seq<Event> {
    if log == [] then []
    else Above(log[..|log| - 1], afterSeq) + if log[|log| - 1].eventSeq > afterSeq then [log[|log| - 1]] else []
  }

  function Take<T>(s: seq<T>, n: nat): seq<T> {
    if |s| <= n then s else s[..n]
  }

  predicate SnapshotRequired(log: seq<Event>, afterSeq: int) {
    log != [] && (MaxSeq(log) - afterSeq > WINDOW || afterSeq < MinSeq(log) - 1)
  }

  function Business(rows: seq<Event>): seq<Event> {
    if rows == [] then []
    else Business(rows[..|rows| - 1]) + if rows[|rows| - 1].body.ViewerCount? then [] else [rows[|rows| - 1]]
  }

  /** A page, when the range query saw the log `atRange` and the row query, a moment later, `atRows`. */
  function Page(atRange: seq<Event>, atRows: seq<Event>, afterSeq: int, limit: int): ReplayResult {
    var n := NormalizeLimit(limit);
    if SnapshotRequired(atRange, afterSeq) then ReplayResult([], false, true) else
    var events := Business(Take(Above(atRows, afterSeq), n + 1));
    ReplayResult(Take(events, n), |events| > n, false)
  }

  method EventsAfter(atRange: seq<Event>, atRows: seq<Event>, afterSeq: int, limit: int) returns (r: ReplayResult)
    ensures r == Page(atRange, atRows, afterSeq, limit)
  {
    hide Above, SnapshotRequired, NormalizeLimit;
    var n := NormalizeLimit(limit);
    if SnapshotRequired(atRange, afterSeq) {
      return ReplayResult([], false, true);
    }
    var rows := Take(Above(atRows, afterSeq), n + 1);
    var events := [];
    var i := 0;
    while i < |rows|
      invariant 0 <= i <= |rows|
      invariant events == Business(rows[..i])
    {
      assert rows[..i + 1][..i] == rows[..i];
      if !rows[i].body.ViewerCount? {
        events := events + [rows[i]];
      }
      i := i + 1;
    }
    assert rows[..|rows|] == rows;
    r := ReplayResult(events, false, false);
    if |r.events| > n {
      r := ReplayResult(r.events[..n], true, false);
    }
  }

  // ---- what a page is ----

  function Clip(x: int, n: nat): nat {
    if x < 0 then 0 else if x > n then n else x
  }

  /** The events of a numbered log after `afterSeq`. */
  function Suffix(log: seq<Event>, lo: int, afterSeq: int): seq<Event> {
    log[Clip(afterSeq - lo + 1, |log|)..]
  }

  lemma {:induction false} NumberedRange(log: seq<Event>, lo: int)
    requires Numbered(log, lo) && log != []
    ensures MinSeq(log) == lo && MaxSeq(log) == lo + |log| - 1
    decreases |log|
  {
    if |log| > 1 {
      NumberedRange(log[..|log| - 1], lo);
    }
  }

  lemma {:induction false} AboveIsSuffix(log: seq<Event>, lo: int, afterSeq: int)
    requires Numbered(log, lo)
    ensures Above(log, afterSeq) == Suffix(log, lo, afterSeq)
    decreases |log|
  {
    if log != [] {
      var n := |log| - 1;
      var front := log[..n];
      AboveIsSuffix(front, lo, afterSeq);
      var c := Clip(afterSeq - lo + 1, |log|);
      if log[n].eventSeq > afterSeq {
        assert log == front + [log[n]];
        assert log[c..] == front[c..] + [log[n]];
      } else {
        assert log[c..] == [];
        assert front[Clip(afterSeq - lo + 1, n)..] == [];
      }
    }
  }

  lemma {:induction false} BusinessIsAll(rows: seq<Event>)
    requires forall i | 0 <= i < |rows| :: !rows[i].body.ViewerCount?
    ensures Business(rows) == rows
    decreases |rows|
  {
    if rows != [] {
      BusinessIsAll(rows[..|rows| - 1]);
      assert rows == rows[..|rows| - 1] + [rows[|rows| - 1]];
    }
  }

  lemma TwoTakes<T>(s: seq<T>, n: nat)
    ensures Take(Take(s, n + 1), n) == Take(s, n)
    ensures |Take(s, n + 1)| > n <==> |s| > n
    ensures Take(s, n + 1) <= s
  {
  }

  lemma SuffixNumbers(log: seq<Event>, lo: int, afterSeq: int)
    requires Numbered(log, lo)
    ensures var rest := Suffix(log, lo, afterSeq);
            && (forall i | 0 <= i < |rest| :: !rest[i].body.ViewerCount?)
            && (afterSeq >= lo - 1 ==> forall i | 0 <= i < |rest| :: rest[i].eventSeq == afterSeq + 1 + i)
  {
  }

  /** Either a snapshot is demanded, exactly when the range query says so, or the page is precisely the next
      min(limit, rest) events after the cursor, and says rightly whether there are more. */
  lemma PageExact(atRange: seq<Event>, log: seq<Event>, lo: int, afterSeq: int, limit: int)
    requires Numbered(log, lo) && atRange <= log
    requires atRange == [] && log != [] ==> lo == 1 && afterSeq >= 0
    ensures var r := Page(atRange, log, afterSeq, limit);
            var rest := Suffix(log, lo, afterSeq);
            && (r.snapshotRequired <==>
                  atRange != [] && (lo + |atRange| - 1 - afterSeq > 1000 || afterSeq < lo - 1))
            && (!r.snapshotRequired ==>
                 && r.events == Take(rest, NormalizeLimit(limit))
                 && (r.hasMore <==> |rest| > NormalizeLimit(limit))
                 && (forall i | 0 <= i < |r.events| :: r.events[i].eventSeq == afterSeq + 1 + i))
  {
    hide Above, Business, MinSeq, MaxSeq, NormalizeLimit;
    if atRange != [] {
      assert Numbered(atRange, lo);
      NumberedRange(atRange, lo);
    }
    AboveIsSuffix(log, lo, afterSeq);
    TwoTakes(Suffix(log, lo, afterSeq), NormalizeLimit(limit));
    SuffixNumbers(log, lo, afterSeq);
    BusinessIsAll(Take(Suffix(log, lo, afterSeq), NormalizeLimit(limit) + 1));
  }

  /** How long a page is: never more than 500 events; of a log that has them exactly as many as were asked for, 100 if
      the request names no sensible number. */
  lemma PageLength(atRange: seq<Event>, log: seq<Event>, lo: int, afterSeq: int, limit: int)
    requires Numbered(log, lo) && atRange <= log
    requires atRange == [] && log != [] ==> lo == 1 && afterSeq >= 0
    ensures var r := Page(atRange, log, afterSeq, limit);
            && |r.events| <= 500
            && (!r.snapshotRequired && |Suffix(log, lo, afterSeq)| >= 500 ==>
                 && (1 <= limit <= 500 ==> |r.events| == limit)
                 && (limit <= 0 ==> |r.events| == 100)
                 && (limit > 500 ==> |r.events| == 500))
  {
    hide Above, Business, MinSeq, MaxSeq, Suffix;
    PageExact(atRange, log, lo, afterSeq, limit);
  }

  // ---- paging ----

  /** How a client moves its cursor over a page. */
  function Cursor(cursor: int, events: seq<Event>): int {
    if events == [] then cursor else
    var c := Cursor(cursor, events[..|events| - 1]);
    var e := events[|events| - 1];
    if !e.body.ViewerCount? && e.eventSeq > c then e.eventSeq else c
  }

  lemma {:induction false} CursorOfPage(cursor: int, events: seq<Event>)
    requires forall i | 0 <= i < |events| :: events[i].eventSeq == cursor + 1 + i && !events[i].body.ViewerCount?
    ensures Cursor(cursor, events) == cursor + |events|
    decreases |events|
  {
    if events != [] {
      CursorOfPage(cursor, events[..|events| - 1]);
    }
  }

  datatype Paged = Complete(events: seq<Event>) | Partial(events: seq<Event>) | Refused

  /** The log as the two queries of one page find it. */
  datatype Reading = Reading(atRange: seq<Event>, atRows: seq<Event>)

  function Prepend(events: seq<Event>, paged: Paged): Paged {
    match paged
    case Complete(more) => Complete(events + more)
    case Partial(more) => Partial(events + more)
    case Refused => Refused
  }

  /** The pages fetched one after the other, each from the log as it then stood, until one has no more. */
  function FetchPages(readings: seq<Reading>, cursor: int, limit: int): Paged {
    if readings == [] then Partial([]) else
    var r := Page(readings[0].atRange, readings[0].atRows, cursor, limit);
    if r.snapshotRequired then Refused
    else if !r.hasMore then Complete(r.events)
    else Prepend(r.events, FetchPages(readings[1..], Cursor(cursor, r.events), limit))
  }

  /** From query to query the log only grows, and it has its first event before it keeps only later ones. */
  predicate Growing(readings: seq<Reading>, lo: int) {
    && (forall i | 0 <= i < |readings| ::
          && Numbered(readings[i].atRange, lo) && Numbered(readings[i].atRows, lo)
          && readings[i].atRange <= readings[i].atRows
          && (readings[i].atRange == [] && readings[i].atRows != [] ==> lo == 1))
    && (forall i, j | 0 <= i < j < |readings| :: readings[i].atRows <= readings[j].atRows)
  }

  /** A full page is the start of what every later log holds after the cursor. */
  lemma PageThenRest(log: seq<Event>, later: seq<Event>, lo: int, cursor: int, n: nat)
    requires cursor >= lo - 1 && log <= later && |Suffix(log, lo, cursor)| > n
    ensures Suffix(later, lo, cursor) == Take(Suffix(log, lo, cursor), n) + Suffix(later, lo, cursor + n)
  {
  }

  /** What paging from `cursor` may collect: all that some row query found, one full page per fetch, or nothing because
      some range query found the cursor too far behind. */
  predicate Collects(readings: seq<Reading>, lo: int, cursor: int, limit: int, paged: Paged)
    requires cursor >= lo - 1
  {
    match paged
    case Complete(events) =>
      exists k | 0 <= k < |readings| :: events == Suffix(readings[k].atRows, lo, cursor)
    case Partial(events) =>
      && |events| == |readings| * NormalizeLimit(limit)
      && (readings != [] ==> events <= Suffix(readings[|readings| - 1].atRows, lo, cursor))
    case Refused => exists k | 0 <= k < |readings| :: lo + |readings[k].atRange| - 1 - cursor > WINDOW
  }

  /** A full first page before what the later pages collect. */
  lemma FirstPage(readings: seq<Reading>, lo: int, cursor: int, limit: int, page: seq<Event>, paged: Paged)
    requires Growing(readings, lo) && cursor >= lo - 1 && readings != []
    requires |Suffix(readings[0].atRows, lo, cursor)| > NormalizeLimit(limit)
    requires page == Take(Suffix(readings[0].atRows, lo, cursor), NormalizeLimit(limit))
    requires Collects(readings[1..], lo, cursor + |page|, limit, paged)
    ensures Collects(readings, lo, cursor, limit, Prepend(page, paged))
  {
    hide Suffix, NormalizeLimit, Numbered;
    var n, tail := NormalizeLimit(limit), readings[1..];
    forall k | 0 <= k < |readings|
      ensures Suffix(readings[k].atRows, lo, cursor) == page + Suffix(readings[k].atRows, lo, cursor + n)
    {
      PageThenRest(readings[0].atRows, readings[k].atRows, lo, cursor, n);
    }
    match paged
    case Complete(more) =>
      var k :| 0 <= k < |tail| && more == Suffix(tail[k].atRows, lo, cursor + n);
      assert tail[k] == readings[k + 1];
    case Partial(more) =>
      assert (|readings| - 1) * n + n == |readings| * n;
      assert tail != [] ==> tail[|tail| - 1] == readings[|readings| - 1];
    case Refused =>
      var k :| 0 <= k < |tail| && lo + |tail[k].atRange| - 1 - (cursor + n) > WINDOW;
      assert tail[k] == readings[k + 1];
  }

  /** While the log grows under it, even between the two queries of a page, paging along the cursor collects every
      event after the start once and in order, as `Collects` says. */
  lemma {:induction false} PagingIsExact(readings: seq<Reading>, lo: int, cursor: int, limit: int)
    requires Growing(readings, lo) && cursor >= lo - 1
    ensures Collects(readings, lo, cursor, limit, FetchPages(readings, cursor, limit))
    decreases |readings|
  {
    hide Page, Suffix, NormalizeLimit, Numbered;
    if readings != [] {
      var now := readings[0];
      var r := Page(now.atRange, now.atRows, cursor, limit);
      PageExact(now.atRange, now.atRows, lo, cursor, limit);
      if r.snapshotRequired {
        assert lo + |now.atRange| - 1 - cursor > WINDOW;
      } else if !r.hasMore {
        assert r.events == Suffix(now.atRows, lo, cursor);
      } else {
        hide Collects, Take;
        NumberedPage(now.atRange, now.atRows, lo, cursor, limit);
        CursorOfPage(cursor, r.events);
        PagingIsExact(readings[1..], lo, cursor + |r.events|, limit);
        FirstPage(readings, lo, cursor, limit, r.events, FetchPages(readings[1..], cursor + |r.events|, limit));
      }
    }
  }

  lemma NumberedPage(atRange: seq<Event>, atRows: seq<Event>, lo: int, cursor: int, limit: int)
    requires Numbered(atRange, lo) && Numbered(atRows, lo) && atRange <= atRows && cursor >= lo - 1
    requires atRange == [] && atRows != [] ==> lo == 1
    ensures var r := Page(atRange, atRows, cursor, limit);
            && (forall i | 0 <= i < |r.events| ::
                  r.events[i].eventSeq == cursor + 1 + i && !r.events[i].body.ViewerCount?)
            && (r.hasMore ==> |r.events| == NormalizeLimit(limit))
  {
    hide Above, Business, MinSeq, MaxSeq, Clip, NormalizeLimit;
    PageExact(atRange, atRows, lo, cursor, limit);
    SuffixNumbers(atRows, lo, cursor);
    if !Page(atRange, atRows, cursor, limit).snapshotRequired {
      assert Page(atRange, atRows, cursor, limit).events <= Suffix(atRows, lo, cursor);
    }
  }

  /** Whatever the outbox holds, no page carries a viewer count, and none exceeds the limit. */
  lemma NoViewersInPages(atRange: seq<Event>, atRows: seq<Event>, afterSeq: int, limit: int)
    ensures forall e | e in Page(atRange, atRows, afterSeq, limit).events :: !e.body.ViewerCount?
  {
    hide Above;
    BusinessOnly(Take(Above(atRows, afterSeq), NormalizeLimit(limit) + 1));
  }

  lemma {:induction false} BusinessOnly(rows: seq<Event>)
    ensures forall e | e in Business(rows) :: !e.body.ViewerCount?
    decreases |rows|
  {
    if rows != [] {
      BusinessOnly(rows[..|rows| - 1]);
    }
  }

  /** The cursor never goes back and never passes over an event: it is the largest business number, or stays. */
  lemma {:induction false} CursorIsLargest(cursor: int, events: seq<Event>)
    ensures Cursor(cursor, events) >= cursor
    ensures forall e | e in events && !e.body.ViewerCount? :: Cursor(cursor, events) >= e.eventSeq
    ensures Cursor(cursor, events) == cursor
            || exists e | e in events :: !e.body.ViewerCount? && e.eventSeq == Cursor(cursor, events)
    decreases |events|
  {
    if events != [] {
      var front, last := events[..|events| - 1], events[|events| - 1];
      CursorIsLargest(cursor, front);
      assert events == front + [last];
    }
  }

  /** A page that demands a snapshot has nothing more. */
  lemma PageMore(atRange: seq<Event>, atRows: seq<Event>, afterSeq: int, limit: int)
    ensures Page(atRange, atRows, afterSeq, limit).hasMore ==> !Page(atRange, atRows, afterSeq, limit).snapshotRequired
  {
  }

  // ---- reconnecting ----

  function SnapshotEvent(auctionId: int, n: int): Event {
    Event(SnapshotId(auctionId, n), auctionId, n, Placeholder)
  }

  /** What the gateway sends first on a new socket, when its range query, its row query and its query for the newest
      number each find the log as it then stands; the replay or the snapshot may fail. */
  function ReplayOrSnapshot(atRange: seq<Event>, atRows: seq<Event>, atMax: seq<Event>, auctionId: int, lastSeq: int,
                            replayFails: bool, snapshotFails: bool): seq<Event> {
    var replay := Page(atRange, atRows, lastSeq, DEFAULT_LIMIT);
    if lastSeq > 0 && !replayFails && !replay.snapshotRequired && !replay.hasMore && replay.events != []
    then replay.events
    else [SnapshotEvent(auctionId, if snapshotFails || atMax == [] then 0 else MaxSeq(atMax))]
  }

  /** A reconnecting client is sent everything it lacks of what the row query finds, exactly when that is between 1 and
      100 events that are still kept, and otherwise a snapshot event: never a part. */
  lemma CompleteOrSnapshot(atRange: seq<Event>, atRows: seq<Event>, atMax: seq<Event>, lo: int, auctionId: int,
                           lastSeq: int, replayFails: bool, snapshotFails: bool)
    requires Numbered(atMax, lo) && atRange <= atRows <= atMax && lastSeq >= 0
    requires atRange == [] ==> lo == 1
    ensures var sent := ReplayOrSnapshot(atRange, atRows, atMax, auctionId, lastSeq, replayFails, snapshotFails);
            var lacking := lo + |atRows| - 1 - lastSeq;
            if lastSeq > 0 && !replayFails && lastSeq >= lo - 1 && 1 <= lacking <= 100
            then sent == Suffix(atRows, lo, lastSeq) && |sent| == lacking
            else sent == [SnapshotEvent(auctionId, if snapshotFails || atMax == [] then 0 else lo + |atMax| - 1)]
  {
    hide Page;
    PageExact(atRange, atRows, lo, lastSeq, DEFAULT_LIMIT);
    if atMax != [] {
      NumberedRange(atMax, lo);
    }
  }
}
