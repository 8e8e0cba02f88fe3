/** The outbox publishers. A row is locked from the moment it is picked until its transaction ends, and a
    publisher that crashes takes its transaction with it. */
module OutboxPublisher {
  import opened AuctionTypes

  datatype RowStatus = Waiting | Published | Dead

  /** A row of `event_outbox`; its id is its index, rows are only ever appended. */
  datatype Row = Row(auctionId: int, eventSeq: int, status: RowStatus, retryCount: nat, createdAt: int, updatedAt: int)

  datatype Params = Params(maxRetries: int, retryBase: int, retryMax: int)

  const MILLISECOND := 1_000_000

  function Normalize(maxRetries: int, retryBase: int, retryMax: int): Params {
    var base := if retryBase <= 0 then 200 * MILLISECOND else retryBase;
    Params(if maxRetries <= 0 then 10 else maxRetries, base, if retryMax < base then 5 * SECOND else retryMax)
  }

  function Pow2(n: nat): int {
    if n == 0 then 1 else 2 * Pow2(n - 1)
  }

  function Backoff(p: Params, retryCount: nat): int
    requires retryCount > 0
  {
    var delay := p.retryBase * Pow2(retryCount - 1);
    if p.retryMax < delay then p.retryMax else delay
  }

  /** No smaller number of the same auction is still waiting. */
  predicate Head(rows: seq<Row>, i: nat) {
    && i < |rows| && rows[i].status == Waiting
    && forall j | 0 <= j < |rows| ::
         rows[j].auctionId == rows[i].auctionId && rows[j].eventSeq < rows[i].eventSeq ==> rows[j].status != Waiting
  }

  predicate Eligible(rows: seq<Row>, p: Params, now: int, i: nat) {
    && Head(rows, i)
    && (rows[i].retryCount == 0 || rows[i].updatedAt <= now - Backoff(p, rows[i].retryCount))
  }

  predicate Older(rows: seq<Row>, i: nat, j: nat)
    requires i < |rows| && j < |rows|
  {
    rows[i].createdAt < rows[j].createdAt || (rows[i].createdAt == rows[j].createdAt && i <= j)
  }

  predicate Free(rows: seq<Row>, p: Params, now: int, locked: set<nat>, i: nat) {
    Eligible(rows, p, now, i) && i !in locked
  }

  /** The oldest of the first n rows that is eligible and that no transaction holds. */
  predicate Oldest(rows: seq<Row>, p: Params, now: int, locked: set<nat>, i: nat, n: nat)
    requires n <= |rows|
  {
    i < n && Free(rows, p, now, locked, i)
    && forall j: nat | j < n && Free(rows, p, now, locked, j) :: Older(rows, i, j)
  }

  predicate IsNext(rows: seq<Row>, p: Params, now: int, locked: set<nat>, i: nat) {
    Oldest(rows, p, now, locked, i, |rows|)
  }

  /** A sensible setting is kept; anything else becomes ten attempts, 200 milliseconds, or a cap of 5 seconds. */
  lemma NormalizeKeeps(maxRetries: int, retryBase: int, retryMax: int)
    ensures maxRetries > 0 && retryBase > 0 && retryMax >= retryBase ==>
              Normalize(maxRetries, retryBase, retryMax) == Params(maxRetries, retryBase, retryMax)
    ensures maxRetries <= 0 ==> Normalize(maxRetries, retryBase, retryMax).maxRetries == 10
    ensures retryBase <= 0 ==> Normalize(maxRetries, retryBase, retryMax).retryBase == 200_000_000
    ensures retryBase > 0 && retryMax < retryBase ==>
              Normalize(maxRetries, retryBase, retryMax).retryMax == 5_000_000_000
  {
  }

  /** The delays start at the base, double with each retry, and stay at the cap once it is reached. */
  lemma BackoffDoubles(p: Params, k: nat)
    requires k > 0 && p.retryBase > 0 && p.retryMax > 0
    ensures Backoff(p, 1) == if p.retryBase <= p.retryMax then p.retryBase else p.retryMax
    ensures Backoff(p, k + 1) == if 2 * Backoff(p, k) <= p.retryMax then 2 * Backoff(p, k) else p.retryMax
    ensures 0 < Backoff(p, k) <= p.retryMax
  {
    PowerPositive(k - 1);
    Doubling(p.retryBase, k);
  }

  lemma {:induction false} PowerPositive(n: nat)
    ensures Pow2(n) >= 1
  {
    if n > 0 {
      PowerPositive(n - 1);
    }
  }

  lemma Doubling(base: int, k: nat)
    requires k > 0 && base > 0
    ensures base * Pow2(k) == 2 * (base * Pow2(k - 1))
    ensures base * Pow2(k - 1) >= base
  {
    PowerPositive(k - 1);
    var q := Pow2(k - 1);
    assert base * (2 * q) == 2 * (base * q);
    assert base * q == base + base * (q - 1);
    assert base * (q - 1) >= 0;
  }

  /** The next row came first: of all free rows it is the oldest, and of those of one instant the first. */
  lemma FirstComeFirst(rows: seq<Row>, p: Params, now: int, locked: set<nat>, i: nat, j: nat)
    requires IsNext(rows, p, now, locked, i) && j < |rows| && Free(rows, p, now, locked, j)
    ensures i < |rows| && rows[i].createdAt <= rows[j].createdAt
    ensures rows[i].createdAt == rows[j].createdAt ==> i <= j
  {
  }

  /** The first n rows' waiting row of an auction with the smallest number. */
  lemma {:induction false} LeastWaiting(rows: seq<Row>, id: int, i: nat, n: nat) returns (k: nat)
    requires i < n <= |rows| && rows[i].status == Waiting && rows[i].auctionId == id
    ensures k < n && rows[k].status == Waiting && rows[k].auctionId == id && rows[k].eventSeq <= rows[i].eventSeq
    ensures forall j | 0 <= j < n && rows[j].status == Waiting && rows[j].auctionId == id ::
              rows[k].eventSeq <= rows[j].eventSeq
    decreases n
  {
    if j: nat :| j < n - 1 && rows[j].status == Waiting && rows[j].auctionId == id {
      k := LeastWaiting(rows, id, j, n - 1);
      if rows[n - 1].status == Waiting && rows[n - 1].auctionId == id && rows[n - 1].eventSeq < rows[k].eventSeq {
        k := n - 1;
      }
    } else {
      k := i;
    }
  }

  /** No auction is blocked: if anything of it waits, it has a head, whatever became of the rows before. */
  lemma SomeHead(rows: seq<Row>, i: nat) returns (k: nat)
    requires i < |rows| && rows[i].status == Waiting
    ensures Head(rows, k) && rows[k].auctionId == rows[i].auctionId && rows[k].eventSeq <= rows[i].eventSeq
  {
    k := LeastWaiting(rows, rows[i].auctionId, i, |rows|);
  }

  /** A row whose attempt failed at `at` and that still waits is not tried again before its delay has passed, and is
      eligible from then on as long as it is its auction's head. */
  lemma WaitsItsDelay(rows: seq<Row>, p: Params, i: nat, at: int, now: int)
    requires i < |rows| && Recorded(rows[i], p, false, at).status == Waiting
    ensures var rows' := rows[i := Recorded(rows[i], p, false, at)];
            && rows'[i].retryCount == rows[i].retryCount + 1
            && (Eligible(rows', p, now, i) <==> Head(rows', i) && now - at >= Backoff(p, rows[i].retryCount + 1))
  {
  }

  /** If any row is eligible and free, one of them is the oldest. */
  lemma {:induction false} OldestExists(rows: seq<Row>, p: Params, now: int, locked: set<nat>, i: nat, n: nat)
    returns (k: nat)
    requires i < n <= |rows| && Free(rows, p, now, locked, i)
    ensures Oldest(rows, p, now, locked, k, n)
    decreases n
  {
    hide Free;
    if j: nat :| j < n - 1 && Free(rows, p, now, locked, j) {
      k := OldestExists(rows, p, now, locked, j, n - 1);
      if Free(rows, p, now, locked, n - 1) && !Older(rows, k, n - 1) {
        k := n - 1;
      }
    } else {
      k := i;
    }
  }

  lemma NextExists(rows: seq<Row>, p: Params, now: int, locked: set<nat>)
    ensures (exists i: nat :: i < |rows| && Free(rows, p, now, locked, i))
       <==> exists i: nat :: i < |rows| && IsNext(rows, p, now, locked, i)
  {
    hide Free;
    if i: nat :| i < |rows| && Free(rows, p, now, locked, i) {
      var k := OldestExists(rows, p, now, locked, i, |rows|);
      assert IsNext(rows, p, now, locked, k);
    }
  }

  /** The row after a publishing attempt has been recorded. */
  function Recorded(r: Row, p: Params, ok: bool, now: int): Row {
    if ok then r.(status := Published, updatedAt := now)
    else r.(status := if r.retryCount + 1 >= p.maxRetries then Dead else Waiting,
            retryCount := r.retryCount + 1, updatedAt := now)
  }

  datatype Outcome = OutcomePublished | OutcomeRetry | OutcomeDeadLetter

  function OutcomeOf(r: Row, p: Params, ok: bool): Outcome {
    if ok then OutcomePublished else if r.retryCount + 1 >= p.maxRetries then OutcomeDeadLetter else OutcomeRetry
  }

  // ---- how much work is left ----

  function Left(r: Row, p: Params): int {
    if r.status == Waiting then p.maxRetries - r.retryCount else 0
  }

  function Budget(rows: seq<Row>, p: Params): int {
    if rows == [] then 0 else Budget(rows[..|rows| - 1], p) + Left(rows[|rows| - 1], p)
  }

  function Count(rows: seq<Row>, s: RowStatus): nat {
    if rows == [] then 0 else Count(rows[..|rows| - 1], s) + if rows[|rows| - 1].status == s then 1 else 0
  }

  lemma {:induction false} BudgetUpdate(rows: seq<Row>, p: Params, i: nat, r: Row, s: RowStatus)
    requires i < |rows|
    ensures Budget(rows[i := r], p) == Budget(rows, p) - Left(rows[i], p) + Left(r, p)
    ensures Count(rows[i := r], s) == Count(rows, s)
                - (if rows[i].status == s then 1 else 0) + (if r.status == s then 1 else 0)
    decreases |rows|
  {
    var n := |rows| - 1;
    if i < n {
      BudgetUpdate(rows[..n], p, i, r, s);
      assert rows[i := r][..n] == rows[..n][i := r];
    } else {
      assert rows[i := r][..n] == rows[..n];
    }
  }

  lemma BudgetAppend(rows: seq<Row>, p: Params, r: Row)
    ensures Budget(rows + [r], p) == Budget(rows, p) + Left(r, p)
  {
    assert (rows + [r])[..|rows|] == rows;
  }

  /** Dead rows have used their attempts; all others have some left. */
  predicate Bounded(rows: seq<Row>, p: Params) {
    forall i | 0 <= i < |rows| ::
      if rows[i].status == Dead then rows[i].retryCount == p.maxRetries else rows[i].retryCount < p.maxRetries
  }

  lemma {:induction false} BudgetNonNegative(rows: seq<Row>, p: Params)
    requires Bounded(rows, p)
    ensures Budget(rows, p) >= 0
    ensures Budget(rows, p) == 0 <==> Count(rows, Waiting) == 0
    decreases |rows|
  {
    if rows != [] {
      BudgetNonNegative(rows[..|rows| - 1], p);
    }
  }

  function Retries(rows: seq<Row>): nat {
    if rows == [] then 0 else Retries(rows[..|rows| - 1]) + rows[|rows| - 1].retryCount
  }

  lemma {:induction false} RetriesUpdate(rows: seq<Row>, i: nat, r: Row)
    requires i < |rows|
    ensures Retries(rows[i := r]) == Retries(rows) - rows[i].retryCount + r.retryCount
    decreases |rows|
  {
    var n := |rows| - 1;
    if i < n {
      RetriesUpdate(rows[..n], i, r);
      assert rows[i := r][..n] == rows[..n][i := r];
    } else {
      assert rows[i := r][..n] == rows[..n];
    }
  }

  function Total(b: BatchResult): nat {
    b.published + b.retried + b.deadLetter
  }

  function With(b: BatchResult, outcome: Outcome): BatchResult {
    match outcome
    case OutcomePublished => b.(published := b.published + 1)
    case OutcomeRetry => b.(retried := b.retried + 1)
    case OutcomeDeadLetter => b.(deadLetter := b.deadLetter + 1)
  }

  /** The batch, and possibly one unreported attempt with the sink's answer to it, account for the change of the rows:
      how many became published, how many died, and by how much the retries rose. */
  predicate Tallies(was: seq<Row>, rows: seq<Row>, b: BatchResult, unreported: Option<bool>) {
    && Count(rows, Published) == Count(was, Published) + b.published + (if unreported == Some(true) then 1 else 0)
    && Retries(rows) == Retries(was) + b.retried + b.deadLetter + (if unreported == Some(false) then 1 else 0)
    && Count(was, Dead) + b.deadLetter <= Count(rows, Dead)
    && Count(rows, Dead) <= Count(was, Dead) + b.deadLetter + (if unreported == Some(false) then 1 else 0)
  }

  lemma NothingTallied(rows: seq<Row>)
    ensures Tallies(rows, rows, BatchResult(0, 0, 0), None)
  {
  }

  /** The rows after attempts on the rows `trail`, the k-th of them in turn k. */
  function Attempted(rows: seq<Row>, p: Params, turns: nat -> Turn, trail: seq<nat>): seq<Row> {
    if trail == [] then rows else
    var k := |trail| - 1;
    var mid := Attempted(rows, p, turns, trail[..k]);
    if trail[k] < |mid| then mid[trail[k] := Recorded(mid[trail[k]], p, turns(k).ok, turns(k).now)] else mid
  }

  /** What those attempts count as. */
  function Outcomes(rows: seq<Row>, p: Params, turns: nat -> Turn, trail: seq<nat>): BatchResult {
    if trail == [] then BatchResult(0, 0, 0) else
    var k := |trail| - 1;
    var mid := Attempted(rows, p, turns, trail[..k]);
    var batch := Outcomes(rows, p, turns, trail[..k]);
    if trail[k] < |mid| then With(batch, OutcomeOf(mid[trail[k]], p, turns(k).ok)) else batch
  }

  /** Each attempt is on the row that is next in its turn. */
  predicate Picks(rows: seq<Row>, p: Params, locked: set<nat>, turns: nat -> Turn, trail: seq<nat>) {
    forall k | 0 <= k < |trail| ::
      IsNext(Attempted(rows, p, turns, trail[..k]), p, turns(k).now, locked, trail[k])
  }

  lemma NoPicks(rows: seq<Row>, p: Params, locked: set<nat>, turns: nat -> Turn)
    ensures Picks(rows, p, locked, turns, []) && Attempted(rows, p, turns, []) == rows
    ensures Outcomes(rows, p, turns, []) == BatchResult(0, 0, 0)
  {
  }

  /** The cycle ended at a commit that was applied although it reported an error. */
  predicate Unreported(error: Option<BatchError>, turn: Turn) {
    error == Some(ProcessFailed) && turn.commit == Lost(true)
  }

  lemma OneMorePick(rows: seq<Row>, p: Params, locked: set<nat>, turns: nat -> Turn, trail: seq<nat>, i: nat)
    requires Picks(rows, p, locked, turns, trail)
    requires IsNext(Attempted(rows, p, turns, trail), p, turns(|trail|).now, locked, i)
    ensures var mid := Attempted(rows, p, turns, trail);
            && Picks(rows, p, locked, turns, trail + [i]) && i < |mid|
            && Attempted(rows, p, turns, trail + [i])
               == mid[i := Recorded(mid[i], p, turns(|trail|).ok, turns(|trail|).now)]
            && Outcomes(rows, p, turns, trail + [i])
               == With(Outcomes(rows, p, turns, trail), OutcomeOf(mid[i], p, turns(|trail|).ok))
  {
    hide Recorded, OutcomeOf, IsNext;
    NextWaits(Attempted(rows, p, turns, trail), p, turns(|trail|).now, locked, i);
    assert (trail + [i])[..|trail|] == trail;
    forall k | 0 <= k < |trail| + 1
      ensures IsNext(Attempted(rows, p, turns, (trail + [i])[..k]), p, turns(k).now, locked, (trail + [i])[k])
    {
      if k < |trail| {
        assert (trail + [i])[..k] == trail[..k];
      }
    }
  }

  lemma NextWaits(rows: seq<Row>, p: Params, now: int, locked: set<nat>, i: nat)
    requires IsNext(rows, p, now, locked, i)
    ensures i < |rows| && rows[i].status == Waiting
  {
  }

  /** One more attempt, reported or not. */
  lemma OneTallied(was: seq<Row>, rows: seq<Row>, p: Params, b: BatchResult, i: nat, ok: bool, now: int)
    requires Tallies(was, rows, b, None) && Bounded(rows, p) && i < |rows| && rows[i].status == Waiting
    ensures var rows' := rows[i := Recorded(rows[i], p, ok, now)];
            && Bounded(rows', p)
            && Tallies(was, rows', With(b, OutcomeOf(rows[i], p, ok)), None)
            && Tallies(was, rows', b, Some(ok))
            && Budget(rows', p) < Budget(rows, p)
  {
    var r := Recorded(rows[i], p, ok, now);
    BudgetUpdate(rows, p, i, r, Published);
    BudgetUpdate(rows, p, i, r, Dead);
    RetriesUpdate(rows, i, r);
  }

  // ---- the repository and one publisher's batch ----

  datatype BatchResult = BatchResult(published: nat, retried: nat, deadLetter: nat)

  datatype ProcessResult = NothingDue | Processed(index: nat, outcome: Outcome) | CommitFailed(index: nat)

  /** What the world does to one ProcessNext: the sink's answer, the commit, the clock. */
  datatype Turn = Turn(ok: bool, commit: CommitOutcome, now: int)

  datatype BatchError = ProcessFailed | CountFailed


  class Repository {
    var rows: seq<Row>
    const p: Params

    constructor (maxRetries: int, retryBase: int, retryMax: int)
      ensures rows == [] && p == Normalize(maxRetries, retryBase, retryMax)
      ensures p.maxRetries > 0 && p.retryBase > 0
    {
      rows := [];
      p := Normalize(maxRetries, retryBase, retryMax);
    }

    method LockNext(locked: set<nat>, now: int) returns (found: Option<nat>)
      ensures found.Some? ==> IsNext(rows, p, now, locked, found.value)
      ensures found.None? ==> forall i: nat | i < |rows| :: !Free(rows, p, now, locked, i)
    {
      hide Free;
      NextExists(rows, p, now, locked);
      if i: nat :| i < |rows| && IsNext(rows, p, now, locked, i) {
        return Some(i);
      }
      return None;
    }

    method MarkPublished(i: nat, now: int)
      requires i < |rows| && rows[i].status == Waiting
      modifies this`rows
      ensures rows == old(rows)[i := Recorded(old(rows)[i], p, true, now)]
    {
      rows := rows[i := rows[i].(status := Published, updatedAt := now)];
    }

    method MarkFailure(i: nat, now: int) returns (outcome: Outcome)
      requires i < |rows| && rows[i].status == Waiting
      modifies this`rows
      ensures rows == old(rows)[i := Recorded(old(rows)[i], p, false, now)]
      ensures outcome == OutcomeOf(old(rows)[i], p, false)
    {
      var nextRetry := rows[i].retryCount + 1;
      var status := Waiting;
      outcome := OutcomeRetry;
      if nextRetry >= p.maxRetries {
        status, outcome := Dead, OutcomeDeadLetter;
      }
      rows := rows[i := rows[i].(status := status, retryCount := nextRetry, updatedAt := now)];
    }

    method ProcessNext(locked: set<nat>, turn: Turn) returns (result: ProcessResult)
      modifies this`rows
      ensures result.NothingDue? ==>
                rows == old(rows) && forall i: nat | i < |rows| :: !Free(rows, p, turn.now, locked, i)
      ensures !result.NothingDue? ==> IsNext(old(rows), p, turn.now, locked, result.index)
      ensures result.CommitFailed? ==>
        && turn.commit.Lost?
        && rows == if turn.commit.applied
                   then old(rows)[result.index := Recorded(old(rows)[result.index], p, turn.ok, turn.now)]
                   else old(rows)
      ensures result.Processed? ==>
        && turn.commit == Committed
        && rows == old(rows)[result.index := Recorded(old(rows)[result.index], p, turn.ok, turn.now)]
        && result.outcome == OutcomeOf(old(rows)[result.index], p, turn.ok)
    {
      var saved := rows;
      var found := LockNext(locked, turn.now);
      if found.None? {
        return NothingDue;
      }
      var outcome := OutcomePublished;
      if turn.ok {
        MarkPublished(found.value, turn.now);
      } else {
        outcome := MarkFailure(found.value, turn.now);
      }
      if turn.commit.Lost? {
        if !turn.commit.applied {
          rows := saved;
        }
        return CommitFailed(found.value);
      }
      result := Processed(found.value, outcome);
    }
  }

  class Publisher {
    const store: Repository
    const batchSize: nat

    constructor (store: Repository, batchSize: int)
      ensures this.store == store && this.batchSize == if batchSize <= 0 then 100 else batchSize
    {
      this.store := store;
      this.batchSize := if batchSize <= 0 then 100 else batchSize;
    }

    /** One cycle: attempts on the rows `trail`, each the next one in its turn. The three counts are the rows that
        became published, were put back with one more retry and became dead; beyond them there is at most one attempt
        whose commit was applied unreported. The cycle stops at the batch size, when no row is free, or at an error. */
    method ProcessOnce(locked: set<nat>, turns: nat -> Turn, countFails: bool)
      returns (batch: BatchResult, error: Option<BatchError>, pending: nat, ghost trail: seq<nat>)
      requires Bounded(store.rows, store.p)
      modifies store`rows
      ensures Bounded(store.rows, store.p) && |store.rows| == |old(store.rows)|
      ensures Total(batch) <= batchSize
      ensures Picks(old(store.rows), store.p, locked, turns, trail)
      ensures store.rows == Attempted(old(store.rows), store.p, turns, trail)
      ensures |trail| == Total(batch) + if Unreported(error, turns(Total(batch))) then 1 else 0
      ensures batch == Outcomes(old(store.rows), store.p, turns, trail[..Total(batch)])
      ensures Tallies(old(store.rows), store.rows, batch,
                      if Unreported(error, turns(Total(batch))) then Some(turns(Total(batch)).ok) else None)
      ensures Budget(store.rows, store.p) + Total(batch) <= Budget(old(store.rows), store.p)
      ensures error == Some(ProcessFailed) ==> Total(batch) < batchSize && turns(Total(batch)).commit.Lost?
      ensures error != Some(ProcessFailed) ==>
                || Total(batch) == batchSize
                || forall i: nat | i < |store.rows| :: !Free(store.rows, store.p, turns(Total(batch)).now, locked, i)
      ensures error != Some(ProcessFailed) ==> (error == Some(CountFailed) <==> countFails)
      ensures error == None ==> pending == Count(store.rows, Waiting)
    {
      hide Free, Tallies, Bounded, IsNext, Recorded, OutcomeOf, Budget, Count, Retries, Picks, Attempted, Outcomes;
      batch, error, pending, trail := BatchResult(0, 0, 0), None, 0, [];
      NoPicks(store.rows, store.p, locked, turns);
      NothingTallied(store.rows);
      var index := 0;
      while index < batchSize
        invariant 0 <= index <= batchSize && batch.published + batch.retried + batch.deadLetter == index
        invariant Bounded(store.rows, store.p) && |store.rows| == |old(store.rows)|
        invariant Tallies(old(store.rows), store.rows, batch, None)
        invariant Budget(store.rows, store.p) + index <= Budget(old(store.rows), store.p)
        invariant |trail| == index && Picks(old(store.rows), store.p, locked, turns, trail)
        invariant store.rows == Attempted(old(store.rows), store.p, turns, trail)
        invariant batch == Outcomes(old(store.rows), store.p, turns, trail)
      {
        ghost var was := store.rows;
        var turn := turns(index);
        var result := store.ProcessNext(locked, turn);
        if result.NothingDue? {
          break;
        }
        NextWaits(was, store.p, turn.now, locked, result.index);
        OneTallied(old(store.rows), was, store.p, batch, result.index, turn.ok, turn.now);
        OneMorePick(old(store.rows), store.p, locked, turns, trail, result.index);
        if result.CommitFailed? {
          ghost var tried := if turn.commit.applied then trail + [result.index] else trail;
          assert tried[..index] == trail;
          return batch, Some(ProcessFailed), 0, tried;
        }
        trail := trail + [result.index];
        match result.outcome {
          case OutcomePublished => batch := batch.(published := batch.published + 1);
          case OutcomeRetry => batch := batch.(retried := batch.retried + 1);
          case OutcomeDeadLetter => batch := batch.(deadLetter := batch.deadLetter + 1);
        }
        index := index + 1;
      }
      if countFails {
        assert trail[..index] == trail;
        return batch, Some(CountFailed), 0, trail;
      }
      pending := PendingCount();
      assert trail[..index] == trail;
    }

    method PendingCount() returns (count: nat)
      ensures count == Count(store.rows, Waiting)
    {
      count := Count(store.rows, Waiting);
    }
  }

  // ---- several publishers ----

  /** `outcome` is None until the sink has answered. */
  datatype Flight = Flight(index: nat, outcome: Option<bool>)

  datatype Delivery = Delivery(auctionId: int, eventSeq: int)

  datatype Sys = Sys(rows: seq<Row>, flights: map<nat, Flight>, deliveries: seq<Delivery>, clock: int)

  datatype Action =
    | Append(auctionId: int, eventSeq: int)
    | Tick(to: int)
    | Pick(publisher: nat, index: nat)
    | Publish(publisher: nat, ok: bool, reached: bool)
    | Finish(publisher: nat, committed: bool)
    | Crash(publisher: nat)

  function Locked(s: Sys): set<nat> {
    set q | q in s.flights :: s.flights[q].index
  }

  predicate Fresh(rows: seq<Row>, auctionId: int, eventSeq: int) {
    forall i | 0 <= i < |rows| :: rows[i].auctionId == auctionId ==> rows[i].eventSeq < eventSeq
  }

  predicate Flying(s: Sys, q: nat) {
    q in s.flights && s.flights[q].index < |s.rows|
  }

  /** The recorded effect of a committed attempt. */
  predicate Commits(s: Sys, act: Action) {
    act.Finish? && act.committed && Flying(s, act.publisher) && s.flights[act.publisher].outcome.Some?
  }

  function Next(s: Sys, p: Params, act: Action): Sys {
    match act
    case Append(a, n) =>
      if Fresh(s.rows, a, n) then s.(rows := s.rows + [Row(a, n, Waiting, 0, s.clock, s.clock)]) else s
    case Tick(to) => if s.clock <= to then s.(clock := to) else s
    case Pick(q, i) =>
      if q in s.flights || !IsNext(s.rows, p, s.clock, Locked(s), i) then s
      else s.(flights := s.flights[q := Flight(i, None)])
    case Publish(q, ok, reached) =>
      if !Flying(s, q) || s.flights[q].outcome.Some? then s
      else
        var r := s.rows[s.flights[q].index];
        s.(flights := s.flights[q := s.flights[q].(outcome := Some(ok))],
           deliveries := if ok || reached then s.deliveries + [Delivery(r.auctionId, r.eventSeq)] else s.deliveries)
    case Finish(q, committed) =>
      if !Flying(s, q) || s.flights[q].outcome.None? then s
      else
        var f := s.flights[q];
        s.(flights := s.flights - {q},
           rows := if committed then s.rows[f.index := Recorded(s.rows[f.index], p, f.outcome.value, s.clock)]
                   else s.rows)
    case Crash(q) => s.(flights := s.flights - {q})
  }

  function Exec(s: Sys, p: Params, acts: seq<Action>): Sys
    decreases |acts|
  {
    if acts == [] then s else Exec(Next(s, p, acts[0]), p, acts[1..])
  }

  function Boot(clock: int): Sys {
    Sys([], map[], [], clock)
  }

  /** Each auction's numbers rise along the table. */
  predicate Rising(rows: seq<Row>) {
    forall i, j | 0 <= i < j < |rows| :: rows[i].auctionId == rows[j].auctionId ==> rows[i].eventSeq < rows[j].eventSeq
  }

  predicate NoneWaitingBelow(rows: seq<Row>, d: Delivery) {
    forall j | 0 <= j < |rows| ::
      rows[j].auctionId == d.auctionId && rows[j].eventSeq < d.eventSeq ==> rows[j].status != Waiting
  }

  predicate Exists(rows: seq<Row>, d: Delivery) {
    exists i | 0 <= i < |rows| :: Delivery(rows[i].auctionId, rows[i].eventSeq) == d
  }

  predicate FlightsOk(s: Sys) {
    && (forall q | q in s.flights :: Head(s.rows, s.flights[q].index))
    && (forall q, r | q in s.flights && r in s.flights && q != r :: s.flights[q].index != s.flights[r].index)
    && (forall q | q in s.flights && s.flights[q].index < |s.rows| && s.flights[q].outcome == Some(true) ::
          Delivery(s.rows[s.flights[q].index].auctionId, s.rows[s.flights[q].index].eventSeq) in s.deliveries)
  }

  predicate DeliveriesOk(s: Sys) {
    && (forall k | 0 <= k < |s.deliveries| ::
         Exists(s.rows, s.deliveries[k]) && NoneWaitingBelow(s.rows, s.deliveries[k]))
    && (forall k, m | 0 <= k < m < |s.deliveries| ::
          s.deliveries[k].auctionId == s.deliveries[m].auctionId ==>
            s.deliveries[k].eventSeq <= s.deliveries[m].eventSeq)
    && (forall i | 0 <= i < |s.rows| && s.rows[i].status == Published ::
          Delivery(s.rows[i].auctionId, s.rows[i].eventSeq) in s.deliveries)
  }

  predicate Inv(s: Sys, p: Params) {
    Rising(s.rows) && Bounded(s.rows, p) && FlightsOk(s) && DeliveriesOk(s)
  }

  lemma AppendKeeps(s: Sys, p: Params, a: int, n: int)
    requires Inv(s, p) && p.maxRetries > 0 && Fresh(s.rows, a, n)
    ensures Inv(Next(s, p, Append(a, n)), p)
  {
    var s' := Next(s, p, Append(a, n));
    forall k | 0 <= k < |s'.deliveries|
      ensures Exists(s'.rows, s'.deliveries[k]) && NoneWaitingBelow(s'.rows, s'.deliveries[k])
    {
      var i :| 0 <= i < |s.rows| && Delivery(s.rows[i].auctionId, s.rows[i].eventSeq) == s.deliveries[k];
      assert s'.rows[i] == s.rows[i];
    }
    forall q | q in s'.flights
      ensures Head(s'.rows, s'.flights[q].index)
    {
      assert Head(s.rows, s.flights[q].index);
    }
  }

  lemma PickKeeps(s: Sys, p: Params, q: nat, i: nat)
    requires Inv(s, p) && q !in s.flights && IsNext(s.rows, p, s.clock, Locked(s), i)
    ensures Inv(Next(s, p, Pick(q, i)), p)
  {
    hide Oldest, Bounded, Rising, Exists, NoneWaitingBelow, Head;
    assert Head(s.rows, i) && i !in Locked(s) by {
      NextIsHead(s.rows, p, s.clock, Locked(s), i);
    }
    forall r | r in s.flights
      ensures s.flights[r].index != i
    {
      assert s.flights[r].index in Locked(s);
    }
  }

  lemma NextIsHead(rows: seq<Row>, p: Params, now: int, locked: set<nat>, i: nat)
    requires IsNext(rows, p, now, locked, i)
    ensures Head(rows, i) && i !in locked
  {
  }

  /** What is in flight has not been overtaken. */
  lemma HeadIsLatest(s: Sys, q: nat, d: Delivery)
    requires FlightsOk(s) && DeliveriesOk(s) && Flying(s, q)
    requires d == Delivery(s.rows[s.flights[q].index].auctionId, s.rows[s.flights[q].index].eventSeq)
    ensures Exists(s.rows, d) && NoneWaitingBelow(s.rows, d)
    ensures forall k | 0 <= k < |s.deliveries| && s.deliveries[k].auctionId == d.auctionId ::
              s.deliveries[k].eventSeq <= d.eventSeq
  {
    assert Head(s.rows, s.flights[q].index);
    forall k | 0 <= k < |s.deliveries| && s.deliveries[k].auctionId == d.auctionId
      ensures s.deliveries[k].eventSeq <= d.eventSeq
    {
      assert NoneWaitingBelow(s.rows, s.deliveries[k]);
    }
  }

  lemma PublishKeeps(s: Sys, p: Params, q: nat, ok: bool, reached: bool)
    requires Inv(s, p) && Flying(s, q) && s.flights[q].outcome.None?
    ensures Inv(Next(s, p, Publish(q, ok, reached)), p)
  {
    hide Bounded, Rising;
    var s' := Next(s, p, Publish(q, ok, reached));
    var i := s.flights[q].index;
    var d := Delivery(s.rows[i].auctionId, s.rows[i].eventSeq);
    HeadIsLatest(s, q, d);
    hide Head, Exists, NoneWaitingBelow;
    assert s'.deliveries == s.deliveries || s'.deliveries == s.deliveries + [d];
    assert DeliveriesOk(s');
  }

  /** Row i has had an attempt recorded; nothing starts waiting again. */
  predicate Settles(rows: seq<Row>, rows': seq<Row>, i: nat) {
    && |rows'| == |rows|
    && forall j | 0 <= j < |rows| ::
         && rows'[j].auctionId == rows[j].auctionId && rows'[j].eventSeq == rows[j].eventSeq
         && (rows'[j].status == Waiting ==> rows[j].status == Waiting)
         && (j != i ==> rows'[j] == rows[j])
  }

  lemma SettlesDeliveries(rows: seq<Row>, rows': seq<Row>, i: nat, d: Delivery)
    requires Settles(rows, rows', i) && Exists(rows, d) && NoneWaitingBelow(rows, d)
    ensures Exists(rows', d) && NoneWaitingBelow(rows', d)
  {
    var j :| 0 <= j < |rows| && Delivery(rows[j].auctionId, rows[j].eventSeq) == d;
    assert Delivery(rows'[j].auctionId, rows'[j].eventSeq) == d;
  }

  lemma SettlesHeads(rows: seq<Row>, rows': seq<Row>, i: nat, j: nat)
    requires Settles(rows, rows', i) && Head(rows, j) && j != i
    ensures Head(rows', j)
  {
  }

  lemma FinishKeeps(s: Sys, p: Params, q: nat)
    requires Inv(s, p) && Flying(s, q) && s.flights[q].outcome.Some?
    ensures Inv(Next(s, p, Finish(q, true)), p)
  {
    hide FlightsOk, DeliveriesOk, Head;
    var s' := Next(s, p, Finish(q, true));
    var i := s.flights[q].index;
    assert s.rows[i].status == Waiting by {
      FlightWaits(s, q);
    }
    assert Settles(s.rows, s'.rows, i);
    FinishFlights(s, s', q);
    FinishDeliveries(s, s', q);
  }

  lemma FlightWaits(s: Sys, q: nat)
    requires FlightsOk(s) && Flying(s, q)
    ensures s.rows[s.flights[q].index].status == Waiting && Head(s.rows, s.flights[q].index)
  {
  }

  lemma FinishFlights(s: Sys, s': Sys, q: nat)
    requires FlightsOk(s) && q in s.flights && s'.flights == s.flights - {q} && s'.deliveries == s.deliveries
    requires Settles(s.rows, s'.rows, s.flights[q].index)
    ensures FlightsOk(s')
  {
    hide Head, Settles;
    forall r | r in s'.flights
      ensures Head(s'.rows, s'.flights[r].index)
    {
      SettlesHeads(s.rows, s'.rows, s.flights[q].index, s.flights[r].index);
    }
    forall r | r in s'.flights && s'.flights[r].index < |s'.rows| && s'.flights[r].outcome == Some(true)
      ensures Delivery(s'.rows[s'.flights[r].index].auctionId, s'.rows[s'.flights[r].index].eventSeq) in s'.deliveries
    {
      SettlesSame(s.rows, s'.rows, s.flights[q].index, s.flights[r].index);
    }
  }

  lemma SettlesSame(rows: seq<Row>, rows': seq<Row>, i: nat, j: nat)
    requires Settles(rows, rows', i) && j < |rows'| && j != i
    ensures |rows'| == |rows| && rows'[j] == rows[j]
  {
  }

  lemma FinishDeliveries(s: Sys, s': Sys, q: nat)
    requires FlightsOk(s) && DeliveriesOk(s) && Flying(s, q) && s'.deliveries == s.deliveries
    requires Settles(s.rows, s'.rows, s.flights[q].index)
    requires s'.rows[s.flights[q].index].status == Published ==> s.flights[q].outcome == Some(true)
    ensures DeliveriesOk(s')
  {
    hide Head, Exists, NoneWaitingBelow;
    forall k | 0 <= k < |s'.deliveries|
      ensures Exists(s'.rows, s'.deliveries[k]) && NoneWaitingBelow(s'.rows, s'.deliveries[k])
    {
      SettlesDeliveries(s.rows, s'.rows, s.flights[q].index, s.deliveries[k]);
    }
  }

  lemma NextKeeps(s: Sys, p: Params, act: Action)
    requires Inv(s, p) && p.maxRetries > 0
    ensures Inv(Next(s, p, act), p)
  {
    hide Bounded, Rising, Head, Exists, NoneWaitingBelow, Oldest, Fresh;
    match act
    case Append(a, n) => if Fresh(s.rows, a, n) { AppendKeeps(s, p, a, n); }
    case Pick(q, i) =>
      if q !in s.flights && IsNext(s.rows, p, s.clock, Locked(s), i) { PickKeeps(s, p, q, i); }
    case Publish(q, ok, reached) =>
      if Flying(s, q) && s.flights[q].outcome.None? { PublishKeeps(s, p, q, ok, reached); }
    case Finish(q, committed) =>
      if Commits(s, act) { FinishKeeps(s, p, q); }
    case _ =>
  }

  lemma {:induction false} RunKeeps(s: Sys, p: Params, acts: seq<Action>)
    requires Inv(s, p) && p.maxRetries > 0
    ensures Inv(Exec(s, p, acts), p)
    decreases |acts|
  {
    if acts != [] {
      NextKeeps(s, p, acts[0]);
      RunKeeps(Next(s, p, acts[0]), p, acts[1..]);
    }
  }

  /** At most one event of an auction is in flight, and it is the smallest that is still waiting. */
  lemma OneInFlight(clock: int, p: Params, acts: seq<Action>, q: nat, r: nat)
    requires p.maxRetries > 0
    requires q in Exec(Boot(clock), p, acts).flights && r in Exec(Boot(clock), p, acts).flights
    ensures var s := Exec(Boot(clock), p, acts);
            && Head(s.rows, s.flights[q].index) && Head(s.rows, s.flights[r].index)
            && (q != r ==> s.rows[s.flights[q].index].auctionId != s.rows[s.flights[r].index].auctionId)
  {
    RunKeeps(Boot(clock), p, acts);
    var s := Exec(Boot(clock), p, acts);
    assert Head(s.rows, s.flights[q].index) && Head(s.rows, s.flights[r].index);
  }

  /** Deliveries of one auction never go back, whatever crashes, retries and lost commits there are; every
      row marked published was delivered; what a delivery has overtaken was delivered or is dead; and a row is
      dead exactly when its retries are used up. */
  lemma DeliveryOrder(clock: int, p: Params, acts: seq<Action>)
    requires p.maxRetries > 0
    ensures var s := Exec(Boot(clock), p, acts);
            && (forall k, m | 0 <= k < m < |s.deliveries| ::
                  s.deliveries[k].auctionId == s.deliveries[m].auctionId ==>
                    s.deliveries[k].eventSeq <= s.deliveries[m].eventSeq)
            && (forall i | 0 <= i < |s.rows| && s.rows[i].status == Published ::
                  Delivery(s.rows[i].auctionId, s.rows[i].eventSeq) in s.deliveries)
            && (forall k, i | 0 <= k < |s.deliveries| && 0 <= i < |s.rows|
                              && s.rows[i].auctionId == s.deliveries[k].auctionId
                              && s.rows[i].eventSeq < s.deliveries[k].eventSeq ::
                  s.rows[i].status == Dead || Delivery(s.rows[i].auctionId, s.rows[i].eventSeq) in s.deliveries)
            && (forall i | 0 <= i < |s.rows| ::
                  if s.rows[i].status == Dead then s.rows[i].retryCount == p.maxRetries
                  else s.rows[i].retryCount < p.maxRetries)
  {
    RunKeeps(Boot(clock), p, acts);
    var s := Exec(Boot(clock), p, acts);
    forall k, i | 0 <= k < |s.deliveries| && 0 <= i < |s.rows|
                  && s.rows[i].auctionId == s.deliveries[k].auctionId && s.rows[i].eventSeq < s.deliveries[k].eventSeq
      ensures s.rows[i].status == Dead || Delivery(s.rows[i].auctionId, s.rows[i].eventSeq) in s.deliveries
    {
      assert NoneWaitingBelow(s.rows, s.deliveries[k]);
    }
  }

  /** The sink has an event exactly after a publish that it took, and rows change only by arrival and by commit. */
  lemma WhatDelivers(s: Sys, p: Params, act: Action)
    ensures var s' := Next(s, p, act);
            && (s'.deliveries == s.deliveries
                || (act.Publish? && (act.ok || act.reached) && Flying(s, act.publisher)
                    && var r := s.rows[s.flights[act.publisher].index];
                       s'.deliveries == s.deliveries + [Delivery(r.auctionId, r.eventSeq)]))
            && ((act.Publish? && (act.ok || act.reached) && Flying(s, act.publisher)
                 && s.flights[act.publisher].outcome.None?)
                ==> s'.deliveries != s.deliveries)
            && (!act.Append? && !Commits(s, act) ==> s'.rows == s.rows)
            && (act.Crash? ==> act.publisher !in s'.flights)
  {
  }

  // ---- termination ----

  function Attempts(s: Sys, p: Params, acts: seq<Action>): nat
    decreases |acts|
  {
    if acts == [] then 0
    else (if Commits(s, acts[0]) then 1 else 0) + Attempts(Next(s, p, acts[0]), p, acts[1..])
  }

  function Arrivals(s: Sys, p: Params, acts: seq<Action>): nat
    decreases |acts|
  {
    if acts == [] then 0
    else |Next(s, p, acts[0]).rows| - |s.rows| + Arrivals(Next(s, p, acts[0]), p, acts[1..])
  }

  lemma CommitLowers(s: Sys, p: Params, act: Action)
    requires Inv(s, p) && Commits(s, act)
    ensures Budget(Next(s, p, act).rows, p) < Budget(s.rows, p)
    ensures Left(Next(s, p, act).rows[s.flights[act.publisher].index], p)
        < Left(s.rows[s.flights[act.publisher].index], p)
  {
    var f := s.flights[act.publisher];
    assert Head(s.rows, f.index);
    BudgetUpdate(s.rows, p, f.index, Recorded(s.rows[f.index], p, f.outcome.value, s.clock), Waiting);
  }

  lemma StepBudget(s: Sys, p: Params, act: Action)
    requires Inv(s, p) && p.maxRetries > 0
    ensures |Next(s, p, act).rows| - |s.rows| == 0 || |Next(s, p, act).rows| - |s.rows| == 1
    ensures Budget(Next(s, p, act).rows, p) + (if Commits(s, act) then 1 else 0)
            <= Budget(s.rows, p) + if |Next(s, p, act).rows| > |s.rows| then p.maxRetries else 0
  {
    hide Inv, Oldest;
    if Commits(s, act) {
      CommitLowers(s, p, act);
    } else if act.Append? {
      BudgetAppend(s.rows, p, Row(act.auctionId, act.eventSeq, Waiting, 0, s.clock, s.clock));
    }
  }

  /** Committed attempts are paid for: each row brings in maxRetries of them and no run can spend more. */
  lemma {:induction false} AttemptsArePaid(s: Sys, p: Params, acts: seq<Action>)
    requires Inv(s, p) && p.maxRetries > 0
    ensures Attempts(s, p, acts) + Budget(Exec(s, p, acts).rows, p)
            <= Budget(s.rows, p) + p.maxRetries * Arrivals(s, p, acts)
    decreases |acts|
  {
    hide Inv, Next, Commits;
    if acts != [] {
      NextKeeps(s, p, acts[0]);
      StepBudget(s, p, acts[0]);
      var s' := Next(s, p, acts[0]);
      AttemptsArePaid(s', p, acts[1..]);
      var more := |s'.rows| - |s.rows|;
      assert p.maxRetries * (more + Arrivals(s', p, acts[1..]))
          == p.maxRetries * more + p.maxRetries * Arrivals(s', p, acts[1..]);
    }
  }

  /** No run makes more committed attempts than are left at its start and maxRetries for each row that arrives; when
      all of them are made, nothing waits. */
  lemma AttemptsAreBounded(s: Sys, p: Params, acts: seq<Action>)
    requires Inv(s, p) && p.maxRetries > 0
    ensures Attempts(s, p, acts) <= Budget(s.rows, p) + p.maxRetries * Arrivals(s, p, acts)
    ensures Attempts(s, p, acts) == Budget(s.rows, p) + p.maxRetries * Arrivals(s, p, acts)
            ==> Count(Exec(s, p, acts).rows, Waiting) == 0
  {
    AttemptsArePaid(s, p, acts);
    RunKeeps(s, p, acts);
    BudgetNonNegative(Exec(s, p, acts).rows, p);
  }

  /** From the start: at most maxRetries committed attempts for each row that ever arrived. */
  lemma AttemptsPerRow(clock: int, p: Params, acts: seq<Action>)
    requires p.maxRetries > 0
    ensures Attempts(Boot(clock), p, acts) <= p.maxRetries * |Exec(Boot(clock), p, acts).rows|
  {
    AttemptsAreBounded(Boot(clock), p, acts);
    ArrivalsAreRows(Boot(clock), p, acts);
  }

  lemma {:induction false} ArrivalsAreRows(s: Sys, p: Params, acts: seq<Action>)
    requires Inv(s, p) && p.maxRetries > 0
    ensures |Exec(s, p, acts).rows| == |s.rows| + Arrivals(s, p, acts)
    decreases |acts|
  {
    hide Inv, Next;
    if acts != [] {
      NextKeeps(s, p, acts[0]);
      StepBudget(s, p, acts[0]);
      ArrivalsAreRows(Next(s, p, acts[0]), p, acts[1..]);
    }
  }

  function AttemptsOn(s: Sys, p: Params, acts: seq<Action>, i: nat): nat
    decreases |acts|
  {
    if acts == [] then 0
    else (if Commits(s, acts[0]) && s.flights[acts[0].publisher].index == i then 1 else 0)
         + AttemptsOn(Next(s, p, acts[0]), p, acts[1..], i)
  }

  /** A waiting event is published or dead after at most maxRetries - retryCount committed attempts on it. */
  lemma {:induction false} EventSettles(s: Sys, p: Params, acts: seq<Action>, i: nat)
    requires Inv(s, p) && p.maxRetries > 0 && i < |s.rows|
    ensures i < |Exec(s, p, acts).rows|
    ensures 0 <= AttemptsOn(s, p, acts, i) + Left(Exec(s, p, acts).rows[i], p) <= Left(s.rows[i], p) <= p.maxRetries
    ensures AttemptsOn(s, p, acts, i) == Left(s.rows[i], p) ==> Exec(s, p, acts).rows[i].status != Waiting
    decreases |acts|
  {
    hide Inv, Oldest, Budget;
    LeftWaiting(s, p, i);
    if acts != [] {
      NextKeeps(s, p, acts[0]);
      if Commits(s, acts[0]) {
        CommitLowers(s, p, acts[0]);
      }
      EventSettles(Next(s, p, acts[0]), p, acts[1..], i);
      RunKeeps(Next(s, p, acts[0]), p, acts[1..]);
      LeftWaiting(Exec(s, p, acts), p, i);
    }
  }

  lemma LeftWaiting(s: Sys, p: Params, i: nat)
    requires Inv(s, p) && i < |s.rows|
    ensures Left(s.rows[i], p) >= 0
    ensures Left(s.rows[i], p) == 0 <==> s.rows[i].status != Waiting
  {
  }

  /** The committed attempts on row i that ended in one way. */
  function EndsOn(s: Sys, p: Params, acts: seq<Action>, i: nat, ok: bool): nat
    decreases |acts|
  {
    if acts == [] then 0
    else (if Commits(s, acts[0]) && s.flights[acts[0].publisher] == Flight(i, Some(ok)) then 1 else 0)
         + EndsOn(Next(s, p, acts[0]), p, acts[1..], i, ok)
  }

  lemma StepFate(s: Sys, p: Params, act: Action, i: nat)
    requires Inv(s, p) && i < |s.rows|
    ensures var s' := Next(s, p, act);
            var failed := Commits(s, act) && s.flights[act.publisher] == Flight(i, Some(false));
            var succeeded := Commits(s, act) && s.flights[act.publisher] == Flight(i, Some(true));
            && i < |s'.rows|
            && s'.rows[i].retryCount == s.rows[i].retryCount + (if failed then 1 else 0)
            && (failed || succeeded ==> s.rows[i].status == Waiting)
            && (s'.rows[i].status == Waiting ==> s.rows[i].status == Waiting)
            && (s'.rows[i].status == Published <==> s.rows[i].status == Published || succeeded)
  {
    hide Bounded, Rising, DeliveriesOk, Oldest, Fresh;
    if Commits(s, act) {
      FlightWaits(s, act.publisher);
    }
  }

  /** What becomes of a waiting row: its retries rise by its failed attempts, it is published exactly when one attempt
      succeeded, and it is dead exactly when none did and its failures have used up its attempts. */
  lemma {:induction false} RowFate(s: Sys, p: Params, acts: seq<Action>, i: nat)
    requires Inv(s, p) && p.maxRetries > 0 && i < |s.rows|
    ensures i < |Exec(s, p, acts).rows|
    ensures var r, r' := s.rows[i], Exec(s, p, acts).rows[i];
            && r'.retryCount == r.retryCount + EndsOn(s, p, acts, i, false)
            && EndsOn(s, p, acts, i, true) <= (if r.status == Waiting then 1 else 0)
            && (r'.status == Published <==> r.status == Published || EndsOn(s, p, acts, i, true) == 1)
            && (r'.status == Dead <==> r.retryCount + EndsOn(s, p, acts, i, false) == p.maxRetries)
    decreases |acts|
  {
    hide Inv, Commits, Next;
    NoneLeft(s, p, i);
    if acts != [] {
      NextKeeps(s, p, acts[0]);
      StepFate(s, p, acts[0], i);
      RowFate(Next(s, p, acts[0]), p, acts[1..], i);
    }
  }

  lemma NoneLeft(s: Sys, p: Params, i: nat)
    requires Inv(s, p) && i < |s.rows|
    ensures s.rows[i].status == Dead <==> s.rows[i].retryCount == p.maxRetries
    ensures s.rows[i].retryCount <= p.maxRetries
  {
  }
}
