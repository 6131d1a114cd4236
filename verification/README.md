# Verified model of the live-gifting pipeline

A Dafny model of the money-and-events pipeline of a live-gifting backend: coins are recharged into
wallets, viewers send gifts that debit them, every change is written to a transactional outbox, a
relay publishes the outbox to Kafka, and two projectors turn the messages into point ledgers and
leaderboards. `dafny verify dfyconfig.toml` checks the whole project.

## How it is modelled

**The services** (`Schema`, `GiftPolicy`, `Ledger`, `Protocol`). `SendGift`, `rejectGift`, `Recharge`,
`CloseLiveSession` and the enqueue calls run concurrently in one machine. `Protocol.Step` executes one
statement of one call; a run is any sequence of steps, so all interleavings of any number of calls are
covered. It is READ COMMITTED: writes are buffered until commit, a wallet row is locked until its
transaction ends, an insert of a key that another transaction holds waits, an insert of a committed
key fails, and an order insert that finds a record in its way, committed or not, keeps a shared lock on
it, as InnoDB does. Crashes, timeouts, deadlock victims and lost commit acknowledgements are steps too.
Starting balances, sessions, users, gifts and matches are arbitrary.

**The proof of the services** is one invariant. `Consistency.DbInv` says what is true of the tables,
`CallStates.CallOk` what each call knows at each of its statements, `CallStates.Apart` that no two
calls hold the same lock, key or id. `Commits` shows that committing a buffer that is consistent in
itself (`Consistency.WritesOk`) keeps the tables consistent, `CommitPoints` that every buffer that can
be committed is, `Transitions` and `Safety` that every step of every call keeps the whole invariant.
`GiftTheorems`, `ReplayTheorems`, `MoneyTheorems`, `Pricing`, `Settlement` and `Progress` draw the
conclusions. `Scenarios` shows that the cases they speak about are reached, each by a run from an
initial state.

**Downstream.** `Relay` is the relay as a machine with any number of overlapping runs, partial sends and
lost acknowledgements, and `RunOnce` as a method that is a run of it. `Points` is the exactly-once
ledger, `CapOverlap` what happens to its caps when applies overlap, `Leaderboard` the machine in which a
crash can fall between any two increments, `Rebuild` the projector with its rebuild loop,
`BoardTheorems` the comparison of boards and orders, `Delivery` the consumer loops, `ViewerEvents` the
ingestion of comments and watch minutes. `Pipeline` puts everything into one machine, in which a
consumer may take any message of the log at any time and any number of times.

Some facts about the code are worth knowing:

- The commit in `SendGift`'s late duplicate branch would publish a second debit. The branch is
  reachable (when the other request was rejected), the commit is not: `LateDuplicateIsReachable`,
  `LateDuplicateNeverCommits`.
- Duplicates of one gift request can deadlock. Two order inserts that found the same record, or waited
  for it, both keep a shared lock on it and then both want it exclusively. Among the modelled locks this
  is the only deadlock, and aborting all but one of the calls is always enough: `DuplicatesCanDeadlock`,
  `StuckIffTwoShare`, `AllCanFinishIff`, `AbortsResolve`.
- A comment or watch minute of an unknown viewer is accepted and can then never be consumed:
  `UnknownViewerIsNeverConsumed`, `UnconsumableActivityExists`. So is a gift of more than 2147483647
  coins: `GiftIsConsumableIffItFits`, `RichGiftIsStuck`.
- The caps of the points ledger rely on one apply at a time: with n overlapping ones a group can get
  cap + n - 1 rows, and no more: `OverlapIsBounded`, `OverlapBoundIsReached`.
- An event that is applied after a rebuild has already counted its order counts twice:
  `RebuildThenDeliver`, `ApplyAfterRebuild`.
- The two totals of a settlement are two reads. Reconciliation reports FAIL exactly when a gift of the
  session commits between them: `ReconciliationPasses`.
- `EnqueueWatchMinuteEvents` never leaves its loop for 65535 minutes, because its 16-bit counter wraps:
  `LoopEndsIff`.

## Model

| member | source | states |
|---|---|---|
| `Safety.RunKeepsInv` | internal/service/gift.go:55-352 | From every starting database, every interleaving of gifts, rejections, recharges, closes and enqueues, with crashes and lost acknowledgements anywhere, keeps the invariant of tables and calls |
| `Safety.StepLegal` | internal/service/gift.go:79-343 | Every statement of every call either does nothing, advances its own call only, or commits a buffer that is consistent in itself |
| `Commits.CommitKeepsDb` | internal/service/gift.go:340-342 | Committing a self-consistent buffer keeps unique keys, the ledger, balances, event chains, sessions and the order/event correspondence |
| `CommitPoints.AcceptCommit` | internal/service/gift.go:200-342 | What an accepted gift has buffered at its commit is consistent: balanced postings, the right balance, one wallet event, one accepted event for its order |
| `CommitPoints.CreditCommit` | internal/service/service.go:158-228 | The same for a recharge |
| `GiftTheorems.OutcomeAgreement` | internal/service/gift.go:79-91 | All calls with the same viewer, request id and body hash that answer give the same answer, and at most one says created, in every interleaving |
| `GiftTheorems.OtherPayloadIsRefused` | internal/service/gift.go:386-388 | Of two answered calls with one request id and different bodies, one at least gets the mismatch error |
| `GiftTheorems.AnswersAreFinal` | internal/service/gift.go:343-351 | A call that has answered is never touched again |
| `GiftTheorems.OrdersAndDebitsCorrespond` | internal/service/gift.go:200-279 | In every reachable state accepted orders and gift debits correspond one to one by viewer and request id, with equal amounts |
| `GiftTheorems.LateDuplicateNeverCommits` | internal/service/gift.go:262-279 | The late duplicate branch never commits and never replies: no second debit |
| `Scenarios.LateDuplicateIsReachable` | internal/service/gift.go:253-264 | From every reachable state at rest, a request that can be bought and a rejected body under its request id lead into the late duplicate branch |
| `Scenarios.LateDuplicateExample` | internal/service/gift.go:253-264 | A concrete database and requests for which they do |
| `Scenarios.GiftCanBeAccepted` | internal/service/gift.go:79-351 | From every reachable state at rest, every unrecorded request that is clear and priced can be accepted, with exactly the rows, postings and events of its quote |
| `Safety.LateDuplicateIsNoReply` | internal/service/gift.go:263-276 | A call that holds its debit can only find a rejected or differently hashed order under its key |
| `Safety.DuplicateIsExplained` | internal/service/gift.go:204-221 | After any of the three duplicate-key errors the replay finds the order, so none ends in an internal error |
| `ReplayTheorems.GiftReplayIsStable` | internal/service/gift.go:354-409 | Once a gift request is recorded, every call with its request id that answers, wherever it was when the record was committed, answers from the record, or with the mismatch error for another body |
| `ReplayTheorems.RecordedGiftMovesNothing` | internal/service/gift.go:200-279 | Whatever such a call executes, all balances, the ledger, orders, recharges, sessions and the outbox stay as they were |
| `ReplayTheorems.LookUpOnlyReplays` | internal/service/gift.go:79-91 | A call that had not looked yet does nothing but give the recorded answer, in every interleaving, and leaves the whole database as it was |
| `ReplayTheorems.RechargeReplayIsStable` | internal/service/service.go:107-138 | Every recharge call under a recorded request id that answers, wherever it was at that moment, reports the recorded transaction, coins and balance, or the mismatch error |
| `ReplayTheorems.RecordedRechargeMovesNothing` | internal/service/service.go:158-206 | Whatever such a call executes, the whole database stays as it was |
| `ReplayTheorems.RecordedRechargeIsRead` | internal/service/service.go:113-135 | A call that reads after the record is committed answers at once, in every reachable state |
| `ReplayTheorems.RechargeAgreement` | internal/service/service.go:107-235 | All recharge calls with one key and body hash that answer report the same transaction, coins and balance, and at most one says created |
| `GiftPolicy.RejectionsAreStable` | internal/service/gift.go:497-514 | A rejection has the same code and HTTP status when decided and when replayed |
| `GiftTheorems.ClosesOnce` | internal/service/settlement.go:58-95 | A session that starts open is closed exactly when one close event exists, and there is never a second |
| `GiftTheorems.NoGiftAfterClose` | internal/service/gift.go:93-108 | A closed session never reopens, and a gift whose status read follows the close is never accepted |
| `MoneyTheorems.NoLostUpdate` | internal/service/gift.go:154-251 | Every committed balance is the opening balance plus the postings to the account, and never turns negative |
| `MoneyTheorems.LedgerConserves` | internal/service/service.go:175-189 | Each transaction and the whole ledger sum to zero; the platform account holds the accepted charges, the top-up account minus the recharges |
| `MoneyTheorems.WalletEventChain` | internal/service/gift.go:289-305 | A viewer's wallet events in id order, folded from the opening balance, give every recorded balance, and the last is the committed one |
| `Pricing.OrdersAreFair` | internal/service/gift.go:110-198 | In every reachable state an accepted order is for an enabled gift and an eligible creator, charges price times quantity and scores as its match prescribes; a rejected order has moved nothing |
| `Pricing.StoredBalancesAreAnnounced` | internal/service/gift.go:244-305 | The balance stored with each accepted order and recharge is the one its wallet event announced |
| `Progress.StuckIffTwoShare` | internal/service/gift.go:253-279 | In a reachable state in which no call can execute its next statement, some call is unfinished if and only if two calls hold the shared lock on the record of one order key |
| `Progress.AllCanFinishIff` | internal/service/gift.go:79-352 | From a reachable state all calls can be brought to their end without aborting any if and only if no two of them hold the shared lock on one record; they then need no more statements than they have left |
| `Progress.AbortsResolve` | internal/service/gift.go:411-435 | Aborting all but one of the calls that share a record, for every record, lets all others finish |
| `Progress.DuplicatesCanDeadlock` | internal/service/gift.go:411-435 | From every initial state three calls with one valid request for an unknown session can reach such a state |
| `Progress.MovesAreBounded` | internal/service/gift.go:79-352 | No schedule of statements that do something is longer than what the calls have left: no livelock |
| `Progress.LockHolderHasTheKeys` | internal/service/gift.go:162-203 | The holder of a wallet lock never waits for a transaction or recharge key of that viewer |
| `Ledger.SumLedgerEntries` | internal/service/service.go:67-73 | The loop computes the sum of the amounts |
| `Ledger.PostingsBalance` | internal/service/gift.go:231-237 | The zero-sum guard never fires, for any amount |
| `Ledger.BytesEqual` | internal/service/service.go:238-248 | The loop returns true exactly for equal byte strings |
| `Ledger.AccountCodesAreFaithful` | internal/service/settlement.go:142-146 | Account codes identify accounts, and the LIKE pattern, with its underscore as a wildcard, selects exactly the user accounts |
| `Settlement.SettlementTables.Generate` | internal/service/settlement.go:99-194 | Both upserts happen or none; the rows are the aggregates of the two reads; a failure to read them back is reported although they are written |
| `Settlement.JoinEqualsDirectSum` | internal/service/settlement.go:134-149 | The order/transaction/entry join total is the direct sum of charged coins |
| `Settlement.ReconciliationPasses` | internal/service/settlement.go:113-157 | PASS exactly when no accepted gift of the session commits between the two reads, otherwise FAIL with mismatch count 1 |
| `Scenarios.ReconciliationCanFail` | internal/service/settlement.go:113-157 | From every reachable state at rest, such a request can commit between the two reads and make the settlement FAIL with mismatch count 1 |
| `Settlement.SettlementIsRepeatable` | internal/service/settlement.go:113-180 | Settling again after a run without new gifts of the session writes the same rows |
| `Settlement.ReconciliationDetects` | internal/service/settlement.go:134-157 | Changing one ledger entry by any non-zero amount makes exactly the session whose gift it debits FAIL |
| `Settlement.AcceptedIsCharged` | internal/service/gift.go:172-179 | No accepted order is free and no charge exceeds 32 bits |
| `Decimal.FormatUint` | internal/outbox/relay.go:116-128 | The printer yields the decimal digits of every 64-bit value and stays inside its 20-byte buffer |
| `Decimal.EventIdRoundTrip` | cmd/points-projector/main.go:154-166 | Parsing the printed id gives the id back, without leading zero, and an id is never read as missing |
| `Decimal.EventIdFitsBuffer` | internal/outbox/relay.go:120-127 | 64-bit values have at most 20 digits |
| `Relay.EmptyRunMeansDrained` | internal/outbox/relay.go:26-31 | With a positive batch size, which New sees to, a successful run returns 0 exactly when nothing was left to publish |
| `Relay.Relay.RunOnce` | internal/outbox/relay.go:41-109 | A failed run publishes nothing and has logged a prefix of its batch; a successful run logs and publishes exactly its batch and returns its size; either way it is a run of the relay machine |
| `Relay.RunKeepsRelay` | internal/outbox/relay.go:41-109 | Every run of the relay machine keeps its invariant |
| `Relay.StepKeepsRelay` | internal/outbox/relay.go:41-109 | Published rows have been sent, messages carry committed rows, overlapping relays hold different rows: kept by every step |
| `Relay.NewRowsKeepRelay` | internal/outbox/relay.go:50-57 | Rows committed meanwhile disturb nothing |
| `Relay.RelayProgress` | internal/outbox/relay.go:84-108 | Only a commit changes the unpublished set, and it removes exactly the rows of its batch |
| `Relay.DrainsInBatches` | internal/outbox/relay.go:41-109 | n rows are drained by k successful runs exactly when k batches hold n rows |
| `Points.PointsProjector.ApplyGift` | internal/projector/points/projector.go:27-63 | Dedupe record and both ledger rows together or not at all; a duplicate changes nothing |
| `Points.PointsProjector.ApplyCapped` | internal/projector/points/projector.go:75-113 | One row below the cap, only the dedupe record at the cap, nothing on a failure |
| `Points.DeliveriesAreExact` | internal/projector/points/projector.go:27-128 | Under any order, repetition and crash of deliveries each applied gift counts once for its viewer and campaign, and each capped group holds min(cap, distinct applied events) rows |
| `CapOverlap.CapIsKeptIff` | internal/projector/points/projector.go:84-112 | With any number of applies in flight, a group stays within its cap however they end if and only if no more of them will insert a row than places are left |
| `CapOverlap.OverlapIsBounded` | internal/projector/points/projector.go:94-112 | In every run with at most n applies of a group in flight the group has at most cap + n - 1 rows |
| `CapOverlap.OverlapBoundIsReached` | internal/projector/points/projector.go:94-112 | The bound is tight: for every group with known parents and every n, a run from the empty ledger with at most n applies in flight ends with cap + n - 1 rows |
| `CapOverlap.AloneIsConsume` | internal/projector/points/projector.go:75-113 | An apply that nothing overlaps is the one-step apply of the exactness theorems |
| `Leaderboard.RunKeepsBoards` | internal/projector/leaderboard/projector.go:30-77 | In every run each member is its starting value plus the executed increments, and each increment of a marked event is executed, cut off or pending |
| `Leaderboard.CrashAccounting` | internal/projector/leaderboard/projector.go:39-77 | No member exceeds its true total; its deficit is exactly what is undelivered, cut off or pending |
| `Leaderboard.AppliedBoardsAreTotals` | internal/projector/leaderboard/projector.go:56-74 | Without interruptions any order and repetition yields the totals, for exactly the members some event counts for |
| `Leaderboard.LaterDeliveriesAdd` | internal/projector/leaderboard/projector.go:39-50 | From any boards with some events marked, later deliveries add exactly unmarked events |
| `Rebuild.LeaderboardProjector.ApplyAcceptedGift` | internal/projector/leaderboard/projector.go:30-77 | One apply, failing at any increment, executed or not, is a run of the board machine; success leaves nothing cut off |
| `Rebuild.TallySession` | internal/projector/leaderboard/projector.go:96-118 | The loop's two maps hold exactly the session's totals per viewer and per match and creator, with zero-point entries |
| `Rebuild.LeaderboardProjector.ReplaceScores` | internal/projector/leaderboard/projector.go:137-151 | The loop replaces the hash of every match in the tally and nothing else; if a command fails, each is replaced, untouched or deleted |
| `Rebuild.LeaderboardProjector.RebuildLiveSession` | internal/projector/leaderboard/projector.go:80-200 | From its separate reads, every member of the session's boards gets its total and exists iff an order counts for it, all others stay; an unknown session is an error; if a command fails, each member is as before, rebuilt or deleted |
| `BoardTheorems.EventsTellTheOrders` | internal/service/gift.go:307-338 | For every member of every board the accepted-gift events add up to the accepted orders |
| `BoardTheorems.SessionTotalsAreTotals` | internal/service/gift.go:149-151 | Rebuilding from one session's orders loses nothing, because a match belongs to its session |
| `BoardTheorems.IncrementalEqualsRebuild` | internal/projector/leaderboard/projector.go:30-200 | In every reachable state with all gifts applied, the boards show the orders and rebuilding any session changes nothing |
| `BoardTheorems.BoardsNeverExceed` | internal/projector/leaderboard/projector.go:39-77 | Crash accounting against the orders of every reachable state |
| `BoardTheorems.RebuildThenDeliver` | internal/projector/leaderboard/projector.go:80-200 | While gifts go on being accepted, a rebuild replaces what crashes left by the totals it reads; once everything accepted up to any later point is delivered, a member is its true total plus exactly the events counted by the rebuild and not marked then |
| `BoardTheorems.RebuildIsExactIffMarked` | internal/projector/leaderboard/projector.go:80-200 | So a member ends true if and only if every event that the rebuild counted for it was marked |
| `BoardTheorems.ApplyAfterRebuild` | internal/projector/leaderboard/projector.go:30-200 | In every reachable state, applying any accepted gift after a rebuild that counted its order shows the true total plus its charge |
| `Delivery.ExtractEventId` | cmd/leaderboard-projector/main.go:149-161 | The first event_id header decides; a missing or unreadable one gives 0 |
| `Delivery.RelayedIdIsRead` | cmd/points-projector/main.go:48-52 | A relayed row arrives with its own id |
| `Delivery.ConsumePoints` | cmd/points-projector/main.go:39-87 | The ledgers hold exactly the effect of the marked messages, all of which are settled; the message an error stops at is unmarked and without effect |
| `Delivery.RestartIsExact` | cmd/points-projector/main.go:39-87 | A consumer restarted at any earlier offset ends with the ledgers of one undisturbed pass |
| `Delivery.ConsumeBoards` | cmd/leaderboard-projector/main.go:41-66 | Marked messages are recorded; only the unmarked message the loop stops at can have lost increments |
| `ViewerEvents.Outbox.EnqueueWatchMinuteEvents` | internal/service/internal_events.go:54-88 | A successful call adds one row per minute, in order; any failure adds none; a call without failing insert is still running after any number of rounds exactly for 65535 minutes |
| `ViewerEvents.BatchIsDistinct` | internal/service/internal_events.go:67-73 | The payload ids of a batch are pairwise distinct |
| `ViewerEvents.LoopEndsIff` | internal/service/internal_events.go:67-67 | The 16-bit loop ends if and only if the number of minutes is below 65535, and then after that many rounds |
| `ViewerEvents.BatchIsAtomic` | internal/service/internal_events.go:30-88 | In every run of all services a step of an enqueue call, for a comment or for watch minutes, adds its whole batch or nothing |
| `Pipeline.WorldKeepsInv` | internal/outbox/relay.go:41-109 | The invariants of services, relay and both consumers hold together in every run of the whole pipeline |
| `Pipeline.EndToEndConservation` | internal/projector/points/projector.go:27-63 | Once the outbox is drained and the gift messages are consumed, GIFT points per viewer and session and per campaign and creator are the charged coins of the accepted orders, each counted once |
| `Pipeline.GiftIsConsumableIffItFits` | migrations/00001_init.sql:123-146 | A gift message can be consumed if and only if its charge fits the INT column; the foreign keys never fail |
| `Scenarios.UnconsumableGiftExists` | migrations/00001_init.sql:123-131 | From every initial state, every request that can be bought for more than 2147483647 coins can be charged and leave a message that can not be consumed |
| `Scenarios.RichGiftIsStuck` | migrations/00001_init.sql:123-131 | A concrete database and request for which it does |
| `Pipeline.ActivityIsConsumableIff` | internal/projector/points/projector.go:75-113 | A comment or watch message can be consumed if and only if its group is full or its viewer, creator and session exist; otherwise the attempt changes nothing |
| `Pipeline.UnknownViewerIsNeverConsumed` | internal/service/internal_events.go:30-51 | A comment or watch message of an unknown viewer or session can be consumed in no run |
| `Scenarios.UnconsumableActivityExists` | internal/service/internal_events.go:30-51 | From every initial state, every comment or watch minute of an unknown viewer or session can get into the log, where it can not be consumed |
| `Pipeline.BoardsEndTruthful` | internal/projector/leaderboard/projector.go:56-74 | Once every gift is applied, all boards of the pipeline show the accepted orders |

## Left out

- `SendGift`, `rejectGift`, `Recharge`, `CloseLiveSession`: modelled on values, as statements of a machine rather than as methods that update tables in place, because the claims are about their interleavings. Statements that touch only rows the call owns, or tables nobody writes, are taken together.
- PostingsBalance: the zero-sum guard is not a branch of the machine, since it can never fire.
- OrdersAreFair: users, gift catalog and matches never change, as no service writes them.
- NoLostUpdate: balances are unbounded integers; 64-bit wrap-around would take more than ninety trillion recharges.
- StuckIffTwoShare: speaks of the wallet, key, session and shared record locks of the model. A lock is granted as soon as it conflicts with no lock another call holds; gap locks, foreign-key locks and the order of waiting requests are not modelled.
- IncrementalEqualsRebuild: board scores are exact integers, so it speaks of totals below 2^53, where Redis doubles are exact.
- RebuildThenDeliver: no apply runs between the reads of the rebuild and its last command, and the rebuild completes; what an interrupted one leaves is stated by RebuildLiveSession.
- RebuildLiveSession: match and campaign ids of 2^63 or more, which the source reports as errors, are not modelled.
- DeliveriesAreExact: deliveries of one session are handled one at a time, which the caps need; CapIsKeptIff and OverlapIsBounded say what overlapping ones can do.
- ConsumePoints: a body that is valid JSON for another topic counts as undecodable; the relay never produces one.
- RelayProgress: a relay commit whose acknowledgement is lost counts as a commit.
- SHA-256 and JSON: body hashes are byte strings of which only equality is used; no collision freedom is claimed.
- Request ids and gift ids stand for their class under the database's key equality; ids that are too long for their column are not modelled.
- Human-readable error messages, HTTP handlers, metrics, configuration, connection setup and generated query code.
- `GetSettlement` and the order of equal scores on leaderboards.
- The state-invalid error of `CloseLiveSession`, which a session that is open or closed never gives.
- The order of publication across batches, and deduplication by the payload's own event id.
