# Real-time auction: transactions, outbox, replay and client replica

A Dafny model of the auction system of this repository, in three layers that compose.

1. **Auction transactions** (bid service, lifecycle worker, auction repository). `Tables` gives every transaction as a
   function from the tables it finds to the tables it commits or the error it aborts with; the classes of `Storage` and
   `Lifecycle` run the same transactions statement by statement, and every method is proved equal to its function.
   `BidCalls` is the machine of whole runs: any number of bid calls whose stale reads, lock answer, transaction and
   (possibly lost) commit are separate steps, interleaved with the worker and the sellers. Application clocks are
   arbitrary at every step; the database clock runs forward. `Guarantees` states what holds over every run.
2. **Outbox publishers** (`OutboxPublisher`): several publishers, crashes, sink failures, commits that fail after delivery.
3. **Replay and replica** (`Replay`, `ClientStore`, `LiveClient`, `ClientRoom`, `ClientConnection`): paged replay, the
   store's fold, the client that deduplicates, detects gaps and compensates (each `await` is a separate step), the room of
   the gateway, and the connection manager. `LiveClient.ReplicaCorrect` joins the client to the running server.

`OutboxFeed` joins layers 1 and 2: the publishers' machine can follow every interleaving of the server's steps with its own,
its rows are the server's outbox after each of them, and so the order of deliveries is a fact about the server's logs.
`BidLock` is the Redis lock; no result of layer 1 depends on it. `Scenarios` holds runs that reach the
states which other results exclude by hypothesis.

The shape of the proofs: `AuctionInvariant` keeps an invariant on one auction's slice (row, bids, order, numbered events),
`TransactionSafety` lifts it to the database for each transaction, `BidCalls.RunKeeps` to runs. `Effects` says what each
operation does, in terms of the rows, events and answers it leaves, apart from the transaction functions.

## What the model brings to light

- `LiveClient.StatusInStep`, `StaleStatus`: the status answer reads the row and the last event number in separate queries,
  and the store accepts older answers. An answer puts the store in step exactly if the row's version is the number beside
  it; otherwise the events in between are dropped as old. An answer behind the store opens a gap for a page that is on its
  way. The replica theorem needs both excluded (`TrustedRun`); `Scenarios.TornIsReachable` and `StaleIsReachable` are runs
  in which they happen.
- `ClientStore.PlaceholderWipes`, `LiveClient.HandshakeKeepsSync`: the gateway's snapshot event carries an auction with
  nothing but an id; it puts the store at the newest number with nothing to show. Only a replay keeps the store in step.
- `BidLock.ExcludesIffDistinct`: the lock excludes in every run exactly if no two requests share a request id, and clients
  may send their own `X-Request-Id`. Prices, orders and answers stay right all the same, since nothing trusts the lock.
- `Guarantees.SureOfTheRecord`, `Scenarios.RepeatIsTurnedAway`: a repeat of a successful bid is not always answered from its
  record. It is sure of the record's answer exactly if it has still to look for the record, or is in its transaction with
  another amount; so a repeat sent after the first answer always gets that answer (`FirstAnswerStands`). One that looked
  before the record existed may be turned away by the auction's state (the bid may have ended it), by the lock, or by a
  lost commit; it writes nothing in any case.
- `ClientConnection.StopIsFinal`: stopping the connection manager is final exactly when no socket is still opening. The
  open handler is never removed and does not ask whether the manager was stopped, so a late open starts a ping timer.
- `Guarantees.Unsellable`: creation admits auctions that can never take a bid, exactly those with a start price of 0 and a
  ceiling below the step.
- The code and its prose differ, and the model follows the code: the conditional UPDATE does not compare `version`
  (SOLUTION.md:170, 186, 386); the first minimum is the start price, or one step if that is 0; and a repeated idempotency
  key is answered with the stored result, a conflict only when the amount differs (SOLUTION.md:188).

## Model

| member | source | states |
|---|---|---|
| BidRules.RulesAgree | server-go/internal/bid/rules.go:10-62 | The Go rule and the SQL WHERE clause accept the same amounts at every instant exactly on rows with bids, rows without bids and a non-negative start price, and rows where both always refuse |
| BidRules.BothClocks | server-go/internal/bid/repository.go:131-166 | With the two clocks apart, both tests pass exactly when the rule passes at the later instant |
| Effects.RefusalsTell | server-go/internal/bid/rules.go:10-62 | Which refusal each row and amount gets; the minimum named by a too low bid is the least amount that is not too low |
| Effects.RequestLimits | server-go/internal/bid/service.go:39-51 | Keys of 1 to 128 characters pass, no others; auction and amount must be positive |
| Storage.Database.ClaimIdempotency | server-go/internal/bid/repository.go:86-118 | Inserts a processing record only for a new key and returns the stored record |
| Storage.Database.ConditionalAccept | server-go/internal/bid/repository.go:131-166 | Affects the row exactly when the WHERE clause holds, and then moves price, leader, deadline, status, version and count as planned |
| Storage.Database.InsertAcceptedBid | server-go/internal/bid/repository.go:168-194 | Appends the bid unless its unique key is taken |
| Storage.Database.InsertOrder | server-go/internal/bid/repository.go:196-212 | Inserts the auction's order unless there is one |
| Storage.Database.InsertOutbox | server-go/internal/bid/repository.go:214-221 | Stores an event unless its auction and number are taken |
| Storage.Database.FinalizeIdempotency | server-go/internal/bid/repository.go:223-240 | Marks the record succeeded with the answer |
| Storage.Database.Rollback | server-go/internal/bid/repository.go:69-80 | Restores every table |
| Storage.Database.EnsureOrder | server-go/internal/worker/repository.go:221-270 | Inserts or finds the order; reports it exactly when winner, seller and price agree |
| Storage.BuildEvents | server-go/internal/bid/service.go:226-295 | The appended events are those of the plan, numbered on from the version |
| Storage.BidService.ChoosePlan | server-go/internal/bid/service.go:112-122 | Ceiling, extension, new deadline and event count; never both a ceiling hit and an extension |
| Storage.BidService.WriteInTx | server-go/internal/bid/service.go:124-179 | The statements in order commit exactly the row, bid, order and key record of the transaction function, or abort with its error |
| Storage.BidService.StoreEvents | server-go/internal/bid/service.go:185-189 | The loop succeeds exactly when no number is taken, and then stores all events |
| Storage.BidService.AcceptInTx | server-go/internal/bid/service.go:112-190 | Writes, builds and stores: the accepting branch of the transaction function |
| Storage.BidService.PlaceInTx | server-go/internal/bid/service.go:84-191 | A bid's transaction commits the tables and answer of the transaction function; on an error nothing has changed |
| Storage.BidService.Place | server-go/internal/bid/service.go:31-200 | A whole call over whatever its two unlocked reads and the lock returned, including a lost commit |
| Lifecycle.LifecycleRepository.StartDue | server-go/internal/worker/repository.go:21-105 | The loop over the locked rows starts all that are due or, on a clash, none; also when the commit is lost, applied or not |
| Lifecycle.LifecycleRepository.EndOne | server-go/internal/worker/repository.go:132-219 | Re-checks status and deadline under the lock; row, order and event change together or not at all, and what is reported when the commit is lost |
| Lifecycle.AuctionRepository.Cancel | server-go/internal/auction/repository.go:160-219 | Owner and status checks in order, then row and event together, also when the commit is lost |
| Lifecycle.AuctionRepository.Update | server-go/internal/auction/repository.go:81-158 | Column by column, the revised row of a pending auction; price and deadline follow the new terms |
| Lifecycle.AuctionRepository.Create | server-go/internal/auction/service.go:146-190 | Inserts a pending auction at its start price exactly when the terms are valid |
| Lifecycle.Runner.ProcessOnce | server-go/internal/worker/runner.go:86-114 | One cycle reaches the tables, counts and joined errors of ending the listed auctions in turn; a failed start or listing stops it with that error |
| AuctionInvariant.EventCountMatches | server-go/internal/bid/service.go:112-122 | The planned event count is the number of events built, and they take the numbers after the version |
| AuctionInvariant.BidView | server-go/internal/bid/service.go:226-295 | What the replay shows after the one or two events of a bid |
| AuctionInvariant.BidKeepsSlice | server-go/internal/bid/service.go:107-190 | A validated bid keeps the whole invariant of its auction |
| AuctionInvariant.StartKeepsSlice | server-go/internal/worker/repository.go:67-98 | A start keeps it |
| AuctionInvariant.EndKeepsSlice | server-go/internal/worker/repository.go:171-213 | A worker's end keeps it |
| AuctionInvariant.CancelKeepsSlice | server-go/internal/auction/repository.go:195-217 | A cancel keeps it |
| AuctionInvariant.ReviseKeepsSlice | server-go/internal/auction/service.go:192-280 | An update of a pending auction keeps it |
| AuctionInvariant.InsertExtends | server-go/internal/bid/repository.go:214-221 | Events numbered on from n extend exactly that auction's log and disturb no other row |
| TransactionSafety.KnownKey | server-go/internal/bid/service.go:202-224 | A committed key record settles every later request with that key |
| TransactionSafety.NewKey | server-go/internal/bid/service.go:84-191 | On a new key a bid commits exactly if the auction exists and both tests pass; no insert can fail |
| TransactionSafety.AcceptWrites | server-go/internal/bid/service.go:124-189 | Exactly what an accepted bid writes to each table |
| TransactionSafety.AcceptSlices | server-go/internal/bid/service.go:124-189 | An accepted bid changes only its own auction's slice |
| TransactionSafety.PlaceKeeps | server-go/internal/bid/service.go:84-191 | A bid's transaction keeps the database invariant and only adds |
| TransactionSafety.StartKeeps | server-go/internal/worker/repository.go:21-105 | Starting never fails on any candidates and keeps the invariant |
| TransactionSafety.EndKeeps | server-go/internal/worker/repository.go:132-219 | Ending never fails: neither the order nor the event can already be there |
| TransactionSafety.CancelKeeps | server-go/internal/auction/repository.go:160-219 | Cancelling keeps the invariant and never meets a storage error |
| TransactionSafety.UpdateKeeps | server-go/internal/auction/repository.go:81-158 | Updating keeps the invariant |
| TransactionSafety.CreateKeeps | server-go/internal/auction/repository.go:21-43 | Creating keeps the invariant |
| Effects.PlaceTells | server-go/internal/bid/service.go:112-189 | What an accepted bid's answer and its one or two stored events tell is the committed row: version, price, leader, deadline, status, order id; and where the deadline goes |
| Effects.PlaceRefuses | server-go/internal/bid/service.go:84-137 | Which refusal a bid's transaction gives in each case |
| Effects.RecordTells | server-go/internal/bid/service.go:202-224 | Only a finished record of the same request answers it; another request under its key is a conflict |
| Effects.StopsEarly | server-go/internal/bid/service.go:39-78 | Why a call stops before its transaction, and with what answer |
| Effects.EndEnds | server-go/internal/worker/repository.go:132-219 | Exactly the active auctions at or past their deadline are ended, with or without a leader; row, order, report and event of the end; anything else is left alone |
| Effects.StartStarts | server-go/internal/worker/repository.go:67-104 | Of the locked rows exactly the pending ones whose start has come are started, each with its event, every other row is unchanged, and the count counts them |
| Effects.CancelCancels | server-go/internal/auction/repository.go:160-219 | Only the seller cancels, and only what is not over; each refusal; row and event |
| Effects.CreateCreates | server-go/internal/auction/service.go:146-190 | Exactly which terms are admitted, and the auction they make |
| Effects.UpdateUpdates | server-go/internal/auction/service.go:192-280 | Only the seller, only before the start on both clocks; named terms change, others stay, the deadline follows start and duration; each refusal |
| Effects.LimitsAtTheirEdges | server-go/internal/auction/service.go:160-183 | The limits of start, duration, extension and threshold at their edges |
| Effects.LostCommits | server-go/internal/worker/repository.go:215-217 | A lost commit leaves what the commit would have left or nothing, and reports an error |
| Effects.LostBids | server-go/internal/bid/repository.go:69-80 | The same of a bid |
| BidCalls.RunKeeps | server-go/internal/bid/service.go:31-200 | Along every run the invariant holds, rows evolve forwards and bids, orders, records and logs only grow |
| BidCalls.AfterKeeps | server-go/internal/bid/service.go:192-199 | Whatever becomes of the commit: the invariant, an accepted answer on record, a refusal without effect |
| BidCalls.CallIsPlace | server-go/internal/bid/service.go:31-200 | The four steps of a call, each on the tables of its own moment, end as `Place` does on what they find |
| Guarantees.LogReplaysToState | server-go/internal/bid/service.go:226-295 | Each auction's outbox numbers are exactly 1..version, and folding the events rebuilds status, price, leader, count, the deadline while active, and winner, final price and order id once ended |
| Guarantees.PriceSafety | server-go/internal/bid/service.go:59-137 | Whatever the stale reads and lock answers: accepted amounts rise by at least a step, the row shows the last bid, the count counts them, the ceiling is never exceeded |
| Guarantees.IdsAreUnique | docs/schema-v2.sql:77-109 | No two bids and no two orders share an id, and bids are numbered in the order of their acceptance |
| Guarantees.BoundedAuction | server-go/internal/bid/rules.go:54-67 | Price bound from below by the bid count; active deadline is the original one plus an extension per extension event; closed bounds on both under a ceiling |
| Guarantees.CeilingReachable | server-go/internal/auction/service.go:336-347 | A live auction accepts some amount, and the ceiling itself, exactly if its minimum does not exceed the ceiling |
| Guarantees.Unsellable | server-go/internal/auction/service.go:336-347 | A created auction accepts no amount at any time exactly if its start price is 0 and its ceiling is below the step |
| Guarantees.UnsellableIsAdmitted | server-go/internal/auction/service.go:146-190 | Such terms are admitted |
| Guarantees.ExactlyOnce | server-go/internal/bid/service.go:55-97 | Two successful calls with one key had one amount and one answer, that of the only bid with the key, across races and lost commits |
| Guarantees.RecordsMatchBids | server-go/internal/bid/repository.go:86-118 | Every committed key record is finished and matches exactly one bid |
| Guarantees.RepeatStep | server-go/internal/bid/service.go:55-97 | A call whose key has a record writes nothing in any step; a step ends in the record's reply exactly if it is the unlocked read of the record or the transaction unless its commit is lost |
| Guarantees.RepeatIsSettled | server-go/internal/bid/service.go:55-97 | Over every later run, a call whose key has a record ends with the stored answer, with the conflict, or turned away by snapshot, lock or a lost commit, and if it has still to read the record, with the record's reply; record and bid stay as they are |
| Guarantees.SureOfTheRecord | server-go/internal/bid/service.go:55-97 | In every continuation a call whose key has a record ends only in the record's reply exactly if it has still to look for the record, or is in its transaction with another amount |
| Guarantees.FirstAnswerStands | server-go/internal/bid/service.go:202-224 | A repeat sent after the first answer gets that answer in every continuation, whatever becomes of the auction |
| Scenarios.RepeatIsTurnedAway | server-go/internal/bid/service.go:59-69 | A run in which a repeat is refused because its own first bid ended the auction |
| Guarantees.OrderConservation | server-go/internal/worker/repository.go:132-270 | An auction has an order exactly if it ended with a leader, and the order is that deal |
| Guarantees.NoStorageErrors | server-go/internal/worker/repository.go:221-286 | No reachable state makes a bid, a start, an end or a cancel meet a duplicate key or a conflicting order |
| Guarantees.SellersAct | server-go/internal/auction/repository.go:81-219 | In a run a cancel cancels and an update revises exactly for the seller of a live or pending auction |
| Guarantees.CycleCounts | server-go/internal/worker/runner.go:86-114 | A cycle's counts are the auctions it moved from active to ended and the orders it added, short of exactly the ends, and of those with a leader, whose commit was applied unreported |
| Guarantees.EndsOnce | server-go/internal/worker/runner.go:98-112 | Over a whole run an auction adds at most 1 to all workers' ended and order totals, and nothing once it is over, whatever commits are lost |
| Guarantees.CycleErrors | server-go/internal/worker/runner.go:98-113 | A cycle's errors are one for each due auction whose commit was lost, and no others |
| Guarantees.DeadlineStability | server-go/internal/bid/repository.go:141-149 | In every reachable state: once the database clock has reached an active auction's deadline, no later run changes price, leader, count or deadline |
| Guarantees.StaysClosed | server-go/internal/bid/repository.go:141-149 | A closed auction stays closed along every run |
| Guarantees.ClosedNext | server-go/internal/bid/repository.go:141-149 | No single step moves a closed auction |
| Guarantees.WhatEnds | server-go/internal/worker/repository.go:107-188 | In every reachable state only a bid of exactly the ceiling before the deadline, or a worker at or after the current deadline, ends an auction, however it was listed |
| Guarantees.DeadlineNeverBack | server-go/internal/bid/service.go:112-122 | Between any two moments of a run an active auction's deadline, price and count never go back and its terms never change |
| Guarantees.AntiSniping | server-go/internal/bid/rules.go:64-67 | In every run, after a committed bid, reported or not, more than the smaller of threshold and extension remains, and it extends exactly when within the threshold; a ceiling bid ends the auction and extends nothing |
| Guarantees.BidProtects | server-go/internal/bid/service.go:112-122 | The same for one transaction on any tables that satisfy the invariant |
| BidLock.RedisLocker.Acquire | server-go/internal/bid/lock.go:29-31 | Locks exactly when no unexpired entry is there |
| BidLock.RedisLocker.Release | server-go/internal/bid/lock.go:10-35 | Deletes an unexpired entry of the caller's own token and nothing else |
| BidLock.RunOwned | server-go/internal/bid/lock.go:10-35 | Under distinct tokens every unexpired hold is the stored entry, over all runs of acquire, expiry and release |
| BidLock.MutualExclusion | server-go/internal/bid/lock.go:10-35 | With distinct request ids at most one call holds the lock |
| BidLock.ReleaseSparesOthers | server-go/internal/bid/lock.go:10-14 | A release takes the lock from another holder exactly if the two request ids are equal |
| BidLock.SharedRequestId | server-go/internal/http/router.go:126-133 | Any two calls under one request id and any third call: a run in which two hold the lock |
| BidLock.HoldsForThreeSeconds | server-go/internal/bid/service.go:72 | A call gets the lock exactly if no unexpired entry is there, and then holds it for three seconds unless it releases it |
| BidLock.ExcludesIffDistinct | server-go/internal/bid/lock.go:10-35 | At most one call holds the lock in every run exactly if no two calls share a request id |
| OutboxPublisher.Repository.constructor | server-go/internal/outbox/repository.go:26-47 | The normalised limits leave at least one attempt and a positive base delay |
| OutboxPublisher.Repository.LockNext | server-go/internal/outbox/repository.go:92-145 | Finds the oldest free row that is its auction's head and whose delay has passed, or there is none |
| OutboxPublisher.NextExists | server-go/internal/outbox/repository.go:92-119 | There is a next row exactly when some row is eligible and free |
| OutboxPublisher.SomeHead | server-go/internal/outbox/repository.go:109-116 | No auction is blocked: if anything of it waits it has a head, whatever became of the rows before |
| OutboxPublisher.Repository.MarkPublished | server-go/internal/outbox/repository.go:147-168 | The row becomes published |
| OutboxPublisher.Repository.MarkFailure | server-go/internal/outbox/repository.go:170-211 | The row goes back to waiting with one more attempt, or dies at the limit |
| OutboxPublisher.Repository.ProcessNext | server-go/internal/outbox/repository.go:49-90 | One attempt on the next row is recorded; nothing changes when none is due or the commit is lost, unless it was applied unreported |
| OutboxPublisher.Publisher.ProcessOnce | server-go/internal/outbox/publisher.go:80-110 | Each attempt is on the row that is next in its turn, and the rows and counts are those of these attempts: became published, rise of the retries, died, up to one attempt committed unreported; the cycle stops only at the batch size, when no row is free, or at an error |
| OutboxPublisher.OneInFlight | server-go/internal/outbox/repository.go:49-119 | At most one event of an auction is in flight, and it is the smallest still waiting |
| OutboxPublisher.NormalizeKeeps | server-go/internal/outbox/repository.go:26-47 | Sensible limits are kept, others become 10 attempts, 200 ms or 5 s |
| OutboxPublisher.BackoffDoubles | server-go/internal/outbox/repository.go:103-107 | The delays start at the base, double with each retry and stay at the cap |
| OutboxPublisher.WaitsItsDelay | server-go/internal/outbox/repository.go:101-108 | A failed row is not tried before its delay has passed, and is eligible from then on while it is its auction's head |
| OutboxPublisher.FirstComeFirst | server-go/internal/outbox/repository.go:117-119 | The next row is the oldest of the free ones, by id within one instant |
| OutboxPublisher.WhatDelivers | server-go/internal/outbox/repository.go:64-89 | The sink has an event exactly after a publish that it took; rows change only by arrival and commit |
| OutboxPublisher.DeliveryOrder | server-go/internal/outbox/repository.go:49-119 | Deliveries of an auction never go back under crashes, retries and lost commits; published rows were delivered; overtaken rows were delivered or are dead; a row is dead exactly when its retries are used up |
| OutboxPublisher.CommitLowers | server-go/internal/outbox/repository.go:170-211 | Each committed attempt strictly lowers the attempts left, of its row and in all |
| OutboxPublisher.AttemptsAreBounded | server-go/internal/outbox/repository.go:64-89 | No run makes more committed attempts than were left at its start plus maxRetries per arriving row; if it makes them all, nothing waits |
| OutboxPublisher.AttemptsPerRow | server-go/internal/outbox/repository.go:170-211 | From the start, at most maxRetries committed attempts per row |
| OutboxPublisher.EventSettles | server-go/internal/outbox/repository.go:170-211 | A row is published or dead after at most its remaining committed attempts |
| OutboxPublisher.RowFate | server-go/internal/outbox/repository.go:170-211 | A row's retries are its failed committed attempts; it is published exactly when one succeeded, and dead exactly when the failures used up its attempts |
| OutboxFeed.NumbersRise | server-go/internal/bid/repository.go:214-221 | A server step adds to an auction only numbers above all it had |
| OutboxFeed.ServerFeeds | server-go/internal/worker/repository.go:272-286 | Each server step is matched by appends of exactly the events it added |
| OutboxFeed.PublishersFollow | server-go/internal/outbox/repository.go:49-119 | For every interleaving of server steps and publishers' own actions there is a run of the publishers' machine with these actions in their places and, at each server step, appends that leave its rows equal to the outbox |
| OutboxFeed.AtEveryMoment | server-go/internal/bid/repository.go:214-221 | In every such joint run the rows are the server's outbox after each step |
| OutboxFeed.LogsAreDelivered | server-go/internal/outbox/repository.go:49-119 | In every joint run from the start, at every moment: each logged event 1..version has one row, published rows were delivered, deliveries are logged events and never go back, and what they overtook was delivered or is dead |
| Replay.EventsAfter | server-go/internal/realtime/outbox_provider.go:29-80 | The loop returns the page of the two queries |
| Replay.PageExact | server-go/internal/realtime/outbox_provider.go:29-134 | A page demands a snapshot exactly when the cursor is too old or too far behind, and otherwise is the next min(limit, rest) events with has_more right |
| Replay.PagingIsExact | server-go/internal/realtime/outbox_provider.go:29-134 | Paging along the cursor, while the log grows even between the two queries of a page, yields the whole suffix once and in order, or full pages of it, or is refused only when too far behind |
| Replay.PageLength | server-go/internal/realtime/outbox_provider.go:126-134 | A page has at most 500 events, and of a long log exactly as many as asked for, 100 by default |
| Replay.NoViewersInPages | server-go/internal/realtime/outbox_provider.go:60-74 | Whatever the outbox holds, no page carries a viewer count |
| Replay.CursorOfPage | mobile-h5/src/hooks/useAuctionSocket.ts:65-70 | The cursor ends at the last event of the page |
| Replay.CursorIsLargest | mobile-h5/src/hooks/useAuctionSocket.ts:65-70 | The cursor is the largest business number of the page or stays |
| Replay.CompleteOrSnapshot | server-go/internal/realtime/hub.go:124-137 | With each of the three queries on the log of its own moment, a reconnecting client is sent everything the row query has for it exactly when that is 1 to 100 kept events, and otherwise a snapshot event |
| ClientStore.AuctionStore.constructor | mobile-h5/src/store/auctionStore.ts:39-53 | The store's first state |
| ClientStore.AuctionStore.ReplaceBySnapshot | mobile-h5/src/store/auctionStore.ts:54-78 | A snapshot replaces all but the live viewer count |
| ClientStore.AuctionStore.HandleEvent | mobile-h5/src/store/auctionStore.ts:79-242 | Seen ids and old numbers are dropped, everything else is folded in, field by field |
| ClientStore.AuctionStore.HandlePage | mobile-h5/src/hooks/useAuctionSocket.ts:65-70 | A page is applied in order and moves the cursor |
| ClientStore.NextEventInSync | mobile-h5/src/store/auctionStore.ts:118-241 | Folding in the very next event keeps the store and its end panel equal to the fold of the log; an end opens the panel with winner, price and order of the log, nothing else touches it |
| ClientStore.OldEventInSync | mobile-h5/src/store/auctionStore.ts:79-101 | A duplicate, an old event or a viewer count leaves the shown auction alone |
| ClientStore.TwiceIsOnce | mobile-h5/src/store/auctionStore.ts:79-101 | An event counts once, however often it arrives |
| ClientStore.ViewersAreShown | mobile-h5/src/store/auctionStore.ts:88-96 | A viewer count is shown and touches nothing else |
| ClientStore.SnapshotStartsOver | mobile-h5/src/store/auctionStore.ts:54-78 | A snapshot forgets what was seen and takes its viewer count only when no live one is known |
| ClientStore.SnapshotInSync | mobile-h5/src/store/auctionStore.ts:54-78 | A consistent snapshot brings the store in step |
| ClientStore.PageInSync | mobile-h5/src/hooks/useAuctionSocket.ts:65-70 | A page starting no later than the next event is folded without a gap, whatever part the store already has |
| ClientStore.LatePageLeavesGap | mobile-h5/src/hooks/useAuctionSocket.ts:65-70 | A page is folded without a gap exactly if it starts no later than the store's next event |
| ClientStore.PlaceholderWipes | server-go/internal/realtime/event.go:52-64 | The gateway's snapshot event puts the store at the newest number with nothing to show |
| LiveClient.ResumeDropsEvent | mobile-h5/src/hooks/useAuctionSocket.ts:83-93 | A handler whose compensation has finished finds its event already folded |
| LiveClient.ClientKeeps | mobile-h5/src/hooks/useAuctionSocket.ts:52-94 | Every client step keeps the store in step without a gap, with any compensations under way |
| LiveClient.PageLeads | mobile-h5/src/hooks/useAuctionSocket.ts:55-77 | A page leads to the next page up to the fifth, to a status request after it or when a snapshot is demanded, and else back to the event |
| LiveClient.CatchesUp | mobile-h5/src/hooks/useAuctionSocket.ts:52-94 | Once the server is quiet, a compensation ends by its own steps with at most five page requests, and the store then shows the event that started it; a gap of up to 500 events needs no status request |
| LiveClient.NothingIsForgotten | mobile-h5/src/hooks/useAuctionSocket.ts:80-94 | Trusted or not, an event handled to its end is in the store or was seen there; a gap starts a compensation from the store's number |
| LiveClient.StatusLeads | mobile-h5/src/hooks/useAuctionSocket.ts:60-63 | A status answer hands the waiting event back and ends a plain refresh |
| LiveClient.DisposedStops | mobile-h5/src/hooks/useAuctionSocket.ts:57-59 | After the page was left, an arriving page or a resumed event changes nothing |
| LiveClient.RunKeeps | mobile-h5/src/hooks/useAuctionSocket.ts:52-94 | The joint invariant of server and client over every trusted run |
| LiveClient.ReplicaCorrect | mobile-h5/src/hooks/useAuctionSocket.ts:52-94 | Under every interleaving with trustworthy status answers, only the next event is ever folded, the store and its end panel show the fold of events 1..lastSeq, and at lastSeq = version the server's row and the deal |
| LiveClient.StaleStatus | server-go/internal/auction/service.go:89-113 | After a status answer the next page is folded without a gap exactly if it starts no later than that answer |
| LiveClient.MomentsDiffer | server-go/internal/auction/service.go:89-113 | Two moments at which transactions left an auction differ in status or bid count |
| LiveClient.StatusInStep | server-go/internal/auction/service.go:89-113 | A status answer puts the store in step exactly if its row's version is the number beside it; events up to that number are then dropped |
| Scenarios.TornIsReachable | server-go/internal/auction/service.go:89-113 | A run in which a bid tears a status answer and the store falls out of step |
| Scenarios.StaleIsReachable | mobile-h5/src/store/auctionStore.ts:54-78 | A run in which an old status answer makes the next page leave a gap |
| LiveClient.HandshakeKeepsSync | server-go/internal/realtime/hub.go:124-137 | Whatever moments the queries see, whichever fails and however far the store has moved on, what the gateway sends first keeps the store in step exactly if it is a replay of 1 to 100 events or an already seen snapshot event |
| ClientRoom.Client.TrySend | server-go/internal/realtime/room.go:138-148 | The non-blocking send succeeds exactly while the buffer has room |
| ClientRoom.Room.constructor | server-go/internal/realtime/room.go:37-47 | An empty, dirty room that has announced nothing |
| ClientRoom.Room.OfferAll | server-go/internal/realtime/room.go:138-148 | Over the clients in any order: those with room get the payload, the others are closed and dropped |
| ClientRoom.Room.BroadcastPayload | server-go/internal/realtime/room.go:138-148 | Keeps: listed exactly while open, closed at most once, each client's room payloads a contiguous run of the broadcasts |
| ClientRoom.Room.BroadcastEvent | server-go/internal/realtime/room.go:80-90 | Besides, the business number follows the largest one sent |
| ClientRoom.Room.MaybeBroadcastViewerCount | server-go/internal/realtime/room.go:92-121 | Announces exactly when dirty, due and moved; the count announced last is the sum of the deltas sent, and a clean room's is within two percent |
| ClientRoom.Room.Register | server-go/internal/realtime/room.go:61-64 | A new client joins the roster at the present broadcast, then an announcement is attempted |
| ClientRoom.Room.Unregister | server-go/internal/realtime/room.go:65-71 | A listed client is removed and closed, then an announcement is attempted; an unlisted one changes nothing |
| ClientRoom.Room.OnEvent | server-go/internal/realtime/room.go:72-73 | A business event keeps the room's invariant and is the next broadcast |
| ClientRoom.Room.OnTick | server-go/internal/realtime/room.go:74-75 | A tick attempts an announcement |
| ClientRoom.Room.Stop | server-go/internal/realtime/room.go:55-60 | Every remaining channel is closed once and the runs stay contiguous |
| ClientRoom.TwoPercent | server-go/internal/realtime/room.go:134-135 | The quotient test is the integer comparison of fifty changes with the announced count |
| ClientRoom.AttemptTells | server-go/internal/realtime/room.go:92-121 | A dirty room announces exactly the first time, or a real change after two seconds; with the number of members, the change since the last, and the last business number |
| ClientRoom.MovedExactly | server-go/internal/realtime/room.go:123-136 | A count is announced exactly the first time or when it differs and is not within two percent of the announced one |
| ClientConnection.ConnectionManager.constructor | mobile-h5/src/lib/connection-manager.ts:38-45 | A stopped manager with no timer and no socket, under the given options or the defaults |
| ClientConnection.ConnectionManager.Start | mobile-h5/src/lib/connection-manager.ts:47-55 | Starts once: listens and awaits the status refresh that connects |
| ClientConnection.ConnectionManager.Stop | mobile-h5/src/lib/connection-manager.ts:57-65 | Clears every timer, closes the socket silently |
| ClientConnection.ConnectionManager.Reconnect | mobile-h5/src/lib/connection-manager.ts:67-73 | Unblocks, forgets earlier failures and connects |
| ClientConnection.ConnectionManager.CloseSocketForTest | mobile-h5/src/lib/connection-manager.ts:75-77 | Asks the current socket to close and keeps it |
| ClientConnection.ConnectionManager.RejectReconnectsForTest | mobile-h5/src/lib/connection-manager.ts:79-84 | Blocks, asks the socket to close and polls |
| ClientConnection.ConnectionManager.AllowReconnectsForTest | mobile-h5/src/lib/connection-manager.ts:86-90 | Unblocks, stops polling and connects |
| ClientConnection.ConnectionManager.Connect | mobile-h5/src/lib/connection-manager.ts:100-130 | Drops what earlier attempts left and attaches a new socket, or falls back if that fails |
| ClientConnection.ConnectionManager.HandleOpen | mobile-h5/src/lib/connection-manager.ts:132-139 | Forgets failures, stops polling, starts the ping, whoever calls it |
| ClientConnection.ConnectionManager.HandleDisconnected | mobile-h5/src/lib/connection-manager.ts:157-175 | Stops the ping; unless stopped, polls or waits by the age of the loss and schedules a reconnect |
| ClientConnection.ConnectionManager.ScheduleReconnect | mobile-h5/src/lib/connection-manager.ts:177-186 | Sets the reconnect timer with the delay of this attempt unless stopped or blocked |
| ClientConnection.ConnectionManager.StartPolling | mobile-h5/src/lib/connection-manager.ts:204-218 | Sets one polling timer at most |
| ClientConnection.ConnectionManager.StartPing | mobile-h5/src/lib/connection-manager.ts:188-195 | Replaces the ping timer |
| ClientConnection.ConnectionManager.CloseSocket | mobile-h5/src/lib/connection-manager.ts:227-237 | Detaches the close handler, closes and forgets the socket |
| ClientConnection.ConnectKeeps | mobile-h5/src/lib/connection-manager.ts:100-130 | A connection attempt leaves exactly one driver: a live socket, or a timer if the constructor fails |
| ClientConnection.NextKeeps | mobile-h5/src/lib/connection-manager.ts:47-252 | Every call and every callback keeps the manager's invariant |
| ClientConnection.NeverStuck | mobile-h5/src/lib/connection-manager.ts:47-252 | Over every run: a live socket or a pending reconnect and not both; the mode tells which timers run; no timer is doubled or lost; every other connection was told to close |
| ClientConnection.CanConnect | mobile-h5/src/lib/connection-manager.ts:100-186 | From every state that is neither stopped nor blocked at most three callbacks bring the connection back |
| ClientConnection.StopIsFinal | mobile-h5/src/lib/connection-manager.ts:57-65 | After a stop every sequence of late callbacks leaves no timer and no socket exactly if no socket was still opening |
| ClientConnection.StillOpening | mobile-h5/src/lib/connection-manager.ts:47-55 | Right after the first attempt a socket is still opening |
| ClientConnection.NoReconnectAfterStop | mobile-h5/src/lib/connection-manager.ts:57-65 | In a stopped manager no reconnect and no polling is pending and no socket is held, late open callbacks included |
| ClientConnection.FailedBacksOff | mobile-h5/src/lib/connection-manager.ts:157-186 | An attempt that fails, by a throwing constructor or by a close before the open, schedules the next delay and polls exactly when it failed pollingAfter after the loss |
| ClientConnection.BlockedLossPolls | mobile-h5/src/lib/connection-manager.ts:157-175 | A loss while reconnecting is blocked leaves the page polling and nothing scheduled |
| ClientConnection.RetryShows | mobile-h5/src/lib/connection-manager.ts:109-114 | A page that polls goes on polling while a new attempt is made; any other shows that it reconnects |
| ClientConnection.OpenForgets | mobile-h5/src/lib/connection-manager.ts:132-139 | An open forgets the outage: the next loss starts the delays afresh and is dated anew |
| ClientConnection.ReconnectConnects | mobile-h5/src/lib/connection-manager.ts:67-73 | A reconnect unblocks, forgets failures and has a new live socket |
| ClientConnection.AllowConnects | mobile-h5/src/lib/connection-manager.ts:86-90 | Besides, it ends the polling |
| ClientConnection.RejectPolls | mobile-h5/src/lib/connection-manager.ts:79-84 | Polling, no reconnect, and the socket told to close |
| ClientConnection.StartsOnce | mobile-h5/src/lib/connection-manager.ts:47-65 | Starting twice is starting once; a stopped manager does not poll |
| ClientConnection.TimersRunAsSet | mobile-h5/src/lib/connection-manager.ts:16-19 | Over every run each pending timer runs for what its kind is set to; the defaults |
| ClientConnection.OutageBacksOff | mobile-h5/src/lib/connection-manager.ts:157-186 | In an outage of any such failures each schedules the next delay of the list, and the page polls exactly when the last came pollingAfter after the loss |

## Left out

- Database semantics are assumptions: a transaction holds its row locks until it ends, a locking read sees the latest row, a
  rollback restores everything (identity counters included), and unique keys hold (docs/schema-v2.sql:90, 109, 131, 153).
  Each transaction is therefore one step of `BidCalls`.
- The database clock never runs backwards.
- OutboxPublisher.DeliveryOrder: a publish that reports an error has reached the sink by then or never does. That holds of the channel sink that the server runs with (server-go/main.go:90); with the Redis sink (server-go/internal/outbox/sink.go:30-40) one that timed out could arrive after a later attempt, which is not modelled.
- SHA-256 of the request is taken as injective: a record holds the pair of auction and amount.
- Storage.Database.ClaimIdempotency: keys are compared character by character and their length is counted in characters; the tables collate them case-insensitively (docs/schema-v2.sql:93, 134), so there keys that differ only in case share a record, and the service limits their length in bytes.
- Money and identifiers are unbounded integers, instants are exact nanoseconds: the rounding of stored times to milliseconds
  (the deadline written by a ceiling bid) is not modelled. Users are their ids.
- Lifecycle.AuctionRepository.Update: one atomic step; two updates validated on the same earlier row are not interleaved, and changes of the title, text and images alone are not modelled.
- Lifecycle.AuctionRepository.Create: the identifier that the database assigns is a parameter; the checks of title, text, images and URLs that can refuse a creation are not modelled.
- Lifecycle.LifecycleRepository.StartDue: which due rows a worker has locked is a parameter, as is the list of due ends; batch limits and SKIP LOCKED only narrow that choice.
- LiveClient.ReplicaCorrect: one auction per client, with status answers that are consistent and not behind the store as hypotheses; the gateway's placeholder snapshot event, the answer to the client's own bid (`applyBidResponse` counts a bid without moving the number) and late messages of a room that was left for another auction are outside it.
- LiveClient.StaleStatus: the handlers are tasks of a state machine, since other handlers run at every `await`; the page loop itself is `ClientStore.AuctionStore.HandlePage`.
- ClientStore.AuctionStore.ReplaceBySnapshot: the list of bids, the last realtime event and the server time are not modelled.
- ClientStore.AuctionStore.HandleEvent: the list of bids, the last realtime event and the server time are not modelled; closing the end panel by hand is not modelled.
- ClientRoom.Room.Stop: the gateway's own sends to a client after its channel was closed, and routing of clients and events to rooms, are not modelled.
- ClientRoom.Room.MaybeBroadcastViewerCount: writing the count to the database is left out, and the quotient is exact, not rounded.
- ClientConnection.ConnectionManager.HandleOpen: messages, errors and status refreshes that a callback triggers change no field of the manager and are left out; a late message of a replaced socket is an ordinary delivery in `LiveClient`.
- OutboxPublisher.Publisher.ProcessOnce: metrics, logging and the waiting between cycles; other publishers act between its attempts only in the machine of `OutboxPublisher.DeliveryOrder`.
- Replay.PagingIsExact: the queries do not look at the publish status, so the log has none here.
- Replay.PageExact: an auction's stored events are taken as consecutive from the oldest kept one, which `Guarantees.LogReplaysToState` proves from number 1.
- HTTP, JSON, authentication, upload, order payment and listing, pages, the admin site, mocks and scripts: plumbing or single-branch facts.
