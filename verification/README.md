# A verified model of the transfer ledger

This project models how the service moves money, tells the world about it and keeps its schema in step,
and proves what it promises. `dafny verify dfyconfig.toml` checks the whole project.

## What is modelled

**Transfers** (`Protocol`, `PostgresStore`). `Store.Transfer` is a session that goes through the statements of
its database transaction one at a time: claim the key, lock the accounts in ascending order one row at a time,
check them, insert the transaction and its legs, move the balances, insert the outbox event, store the reply,
commit. Any number of sessions interleave in any order and any of them may abort anywhere. `Sequential` is
what a client may imagine instead: a ledger that executes one request at a time. `Refinement` and
`Linearizability` prove that nobody can tell the difference, `Verdicts` says over the rows of the tables when
a request is accepted and with which error it is refused, `Conservation` and `Movements` say what the tables
then satisfy, `Progress` and `Deadlock` that nobody gets stuck. `PostgresStore.Store` is the same protocol as
a class whose methods update the tables in place, one method per statement, and `Transfer` calls them with
arbitrary bursts of other sessions' statements in between.

**Delivery** (`Outbox`, `Relay`). Relays claim due events skipping locked ones, replays wait for their row,
the publisher accepts or refuses at will, and a transaction may die after publishing. `OutboxRuns` proves that
an event's row is told by its committed delivery rows, that no accepted publication is forgotten, and that
draining ends. `Relay.OutboxStore` has `DispatchBatch`, the drain loop and `ReplayEvent` as methods.
`EndToEnd` puts both halves over one database, the commit of a transfer inserting its event into the
delivery machine, and `Completion` proves that everything begun can be finished.

**Migrations** (`Migrations`, `MigrationNames`, `Migrator`). Reading the directory, and applying and rolling back with a failure
possible at any migration, including a commit whose answer is lost.

**Fingerprints** (`JsonText`, `JsonGrammar`, `JsonReading`, `JsonSoundness`, `JsonObjects`, `JsonWriting`,
`JsonReference`, `Fingerprint`). The decoder and the encoder of Go's `encoding/json` as the canonical form uses them: numbers
kept as literals, last duplicate key, at most 10000 levels, HTML escaping on writing. `JsonGrammar` is the
grammar of RFC 8259 (section 4 for objects, 6 for numbers, 7 for strings) as derivation trees; the reader is
proved to accept the texts of the grammar and nothing else, and `JsonReference` says character by character,
without the tables of the reader, what those texts are.

## Assumptions

- READ COMMITTED: a statement sees the latest committed rows and its own transaction's writes; `FOR UPDATE`
  waits and then reads the fresh row, while which accounts exist is fixed when that SELECT starts; a
  conflicting insert waits for the transaction in flight to settle; all locks go at the end of a transaction.
  Foreign-key checks lock only rows the session already holds. Accounts are never deleted.
- Generated identifiers are new: an action offering an identifier generated before does nothing.
- Identifiers are natural numbers, ordered; `now()` is fixed per transaction and the clock never runs back.
- A commit takes effect or not; its answer may be lost in both cases.
- SHA-256 is an injective function, a hypothesis of the theorems that need it. The renderer and the publisher
  are arbitrary functions. SQL text is an arbitrary deterministic partial function on schemas that leaves
  `schema_migrations` to the program.
- Texts are sequences of Unicode scalar values, that is, valid UTF-8; keys are compared by code point, which
  is the order of their UTF-8 bytes.

## Where the code differs from what is said about it

- `docs/IMPLEMENTATION_PLAN.md:496` lets the relay claim every event that is not published; the code claims
  only pending ones (`internal/storage/postgres/outbox.go:115`), and so does the model.
- `docs/IMPLEMENTATION_PLAN.md:511-513` says a replay resets a failed event so that it re-enters the relay.
  The code adds to the attempts instead, so a failed event is never pending again
  (`OutboxRuns.FailedNeverPendingAgain`), while a failing replay of a published event can make it pending
  (`OutboxRuns.FailedReplayOfPublished`).
- `Balanced` is meant to mirror the trigger. It does for two-leg transactions (`Ledger.TwoLegsAgree`), but in
  general it accepts sums that are non-zero multiples of 2^64 (`Ledger.BalancedMissesLargeImbalance`).
- Down rolls back the newest migrations its own program knows. If an older program rolls back a newer
  database it leaves a gap (`Migrator.OldProgramLeavesGap`); `Migrator.DownKeepsPrefixWhen` says exactly
  when it does not. With one list of migrations there is never a gap (`Migrator.FixedListAlwaysAPrefix`).
- A missing account is rejected at the moment the locking SELECT starts, not at the later check: the account
  may exist by then. The rejection takes its place in the sequential run at that moment.
- When several versions lack an up body, which of them the error names depends on the order of a Go map.
- The decoder does not look at what follows the first JSON value, so such bodies have the fingerprint of
  that value alone (`Fingerprint.TrailingTextIsPassedOver`). Bodies that are JSON texts as a whole are never
  confused (`Fingerprint.CanonicalMeansValue`, `Fingerprint.RestIsPassedOver`).

## Model

| member | source | states |
|---|---|---|
| `Ledger.Balanced` | internal/ledger/transaction.go:55-61 | the loop over int64 additions answers true exactly when the exact sum of signed amounts is a multiple of 2^64, which below that magnitude means zero |
| `Ledger.WrappedSumWrapsExactSum` | internal/ledger/transaction.go:34-61 | wrapping at every step, negation included, gives the exact sum wrapped once |
| `Ledger.BalancedMissesLargeImbalance` | internal/ledger/transaction.go:51-61 | the check in Go and the check in SQL are not equivalent: a list of positive int64 legs that `Balanced` accepts and whose exact sum is not zero |
| `Ledger.TriggerImpliesBalanced` | internal/ledger/service.go:96-102 | whatever passes the deferred trigger passes the service's assertion after the commit |
| `Ledger.TwoLegsAgree` | internal/storage/postgres/migrations/0001_init.up.sql:63-98 | for two legs of positive amounts the Go check and the trigger agree in both directions |
| `Tables.NewTransactionCreated` | internal/outbox/event.go:80-110 | the loop builds the event field by field: type, version and aggregate, the transaction's id, currency, reference and description, and leg by leg in order the account, direction and amount |
| `Tables.SignedTotalConcat` | internal/storage/postgres/migrations/0001_init.up.sql:48-50 | an account's total over rows appended later is the sum of the two totals |
| `Verdicts.PostsExactlyWhen` | internal/storage/postgres/store.go:77-166 | a transfer posts if and only if the command is well formed, the key is unused, both accounts exist in its currency, the credited one covers it or may go below zero, the reference is free, the balances stay bigints and the identifiers are new |
| `Verdicts.CommandRefusedExactlyWhen` | internal/ledger/transaction.go:82-93 | invalid amount, invalid currency and same account, each exactly when, in this order |
| `Verdicts.KeyDecidesExactlyWhen` | internal/storage/postgres/store.go:187-221 | replay with these bytes, key reuse and missing reply, each exactly when, whatever the accounts are |
| `Verdicts.AccountsRefusedExactlyWhen` | internal/storage/postgres/store.go:102-121 | account not found (the debited one first), currency mismatch and insufficient funds with their figures, each exactly when |
| `Verdicts.WritesRefusedExactlyWhen` | internal/storage/postgres/store.go:123-130 | duplicate reference and balance out of range exactly when; the backstops of the schema are never answered |
| `Verdicts.PostingWrites` | internal/storage/postgres/store.go:123-158 | a posting writes exactly this: the two balances, the transaction row, the two legs, the key row with hash and reply, and the event with both legs |
| `Verdicts.CurrencyMeaning` | internal/ledger/money.go:31-41 | a currency is valid if and only if it is three capital letters |
| `Conservation.OpenKeeps` | internal/ledger/service.go:46-67 | opening an account at zero keeps every table invariant |
| `Conservation.PostKeepsBalances` | internal/storage/postgres/store.go:325-339 | after a posting every cached balance is still the sum of the account's signed entries, within bigint and above its floor |
| `Conservation.PostKeepsEntries` | internal/storage/postgres/store.go:274-323 | after a posting every transaction still has exactly two opposite legs of one positive amount in the currency of both accounts |
| `Conservation.PostConservesMoney` | internal/storage/postgres/store.go:325-339 | a posting leaves the total of each currency at zero |
| `Conservation.PostKeepsKeys` | internal/storage/postgres/store.go:223-236 | completed keys and transactions stay in one-to-one correspondence, and every key row has a reply |
| `Conservation.PostKeepsEvents` | internal/storage/postgres/store.go:132-141 | events and transactions stay in one-to-one correspondence, each event telling field by field its transaction's row and legs |
| `Conservation.PostKeepsRefs` | internal/storage/postgres/migrations/0001_init.up.sql:36-39 | no two transactions share an external reference |
| `Conservation.EffectKeeps` | internal/storage/postgres/store.go:77-166 | every operation of the reference ledger keeps all of these together |
| `Conservation.RunKeeps` | internal/storage/postgres/store.go:77-166 | so does every sequence of operations |
| `Conservation.RunExtends` | internal/storage/postgres/store.go:168-236 | committed keys, transactions and events never change, and entries only grow |
| `Movements.BalanceIsWhatMoved` | internal/ledger/transaction.go:63-77 | a balance is the sum over the posted transfers of plus the amount where the account was debited and minus where it was credited |
| `Movements.CommittedBalanceIsWhatMoved` | internal/storage/postgres/store.go:325-339 | the same of the committed balances after any interleaving |
| `Movements.OpensAsAsked` | internal/ledger/service.go:46-67 | opening an account stores it as asked for with a zero balance and changes nothing else, in the protocol as in the reference ledger; a malformed currency is refused |
| `Movements.TermsStay` | internal/storage/postgres/migrations/0001_init.up.sql:10-26 | no later run changes an account's currency or whether it may go below zero |
| `Movements.NeverOverdrawn` | internal/storage/postgres/migrations/0001_init.up.sql:24-25 | in every reachable state a balance is a bigint, and negative only where that is allowed |
| `Movements.OnlyPostingWrites` | internal/storage/postgres/store.go:187-221 | a request that changes any table had a valid command, an unused key and acceptable accounts: replays, reused keys and rejections move nothing |
| `LockOrder.WantsAscend` | internal/storage/postgres/store.go:238-246 | along any chain of waiters the wanted locks strictly ascend |
| `LockOrder.NoWaitCycle` | internal/storage/postgres/store.go:67-72 | a lock table whose waiters all want something above what they hold has no cycle of waits |
| `LockOrder.SomebodyRuns` | internal/storage/postgres/store.go:67-72 | following the waits from any party ends at one that is not waiting |
| `ProtocolInv.ApplySeesCheckedRows` | internal/storage/postgres/store.go:115-130 | the balance update computes from the very rows that were checked under lock |
| `CommitStep.MergeIsPost` | internal/storage/postgres/store.go:123-158 | making a finished session's private writes visible is the reference ledger's posting |
| `CommitStep.CommitAnswer` | internal/storage/postgres/store.go:91-121 | everything the session checked along the way still holds at its commit, so the reference ledger would post as well |
| `CommitStep.TriggerNeverFires` | internal/storage/postgres/migrations/0001_init.up.sql:58-103 | the deferred trigger and the service's assertion find two balanced legs at every commit |
| `CommitStep.CommitIsPost` | internal/storage/postgres/store.go:154-166 | a commit answers and writes exactly what the reference ledger does at that moment |
| `CommitStep.CommitKeeps` | internal/storage/postgres/store.go:154-166 | a commit leaves every other session's locks, rows read and private writes intact |
| `Refinement.SelectDecides` | internal/storage/postgres/store.go:240-270 | an account missing when the locking SELECT starts decides the rejection, and the reference ledger agrees at that instant |
| `Refinement.CheckDecides` | internal/storage/postgres/store.go:102-121 | currency and funds rejections agree with the reference ledger when they are made |
| `Refinement.InsertTxDecides` | internal/storage/postgres/store.go:283-291 | a duplicate external reference is rejected exactly where the reference ledger rejects it |
| `Refinement.ApplyDecides` | internal/storage/postgres/store.go:325-339 | only leaving the bigint range can stop the balance update; the floor constraint cannot |
| `Refinement.StepSimulates` | internal/storage/postgres/store.go:77-166 | every action of every session is at most one operation of the reference ledger, with the same tables and the same answer |
| `Refinement.StepKeeps` | internal/storage/postgres/store.go:77-166 | every action keeps the protocol invariant and every table invariant |
| `Refinement.AlwaysGood` | internal/storage/postgres/store.go:77-166 | they hold in every reachable state |
| `Linearizability.Linearizable` | internal/storage/postgres/store.go:77-166 | for every schedule: committed tables equal one sequential run of the operations that took effect, every answer given is that run's answer, every operation is the request of a session, whether or not its answer arrived, and no request takes effect twice |
| `Linearizability.RealTimeOrder` | internal/storage/postgres/store.go:77-166 | a request answered before another arrived comes before it in that run |
| `Linearizability.CommittedTablesConsistent` | internal/storage/postgres/migrations/0001_init.up.sql:10-103 | balances, legs, currencies, references, keys and events are consistent in every reachable committed state |
| `Linearizability.BackstopsUnreachable` | internal/storage/postgres/store.go:389-416 | no run reaches the balance-floor constraint, the deferred trigger, the service's assertion or the missing stored reply |
| `Linearizability.SuccessMatchesStore` | internal/storage/postgres/store.go:187-236 | whoever succeeded was told what is stored under the key, and sent the fingerprint stored with it |
| `Linearizability.SameKeySameReply` | internal/storage/postgres/store.go:168-236 | all successful callers of one key sent the same fingerprint and got the same status and bytes |
| `Linearizability.PostsOncePerKey` | internal/storage/postgres/store.go:168-221 | under one key at most one request posts; later valid ones get its reply if the fingerprint matches and a key-reuse rejection if not |
| `Progress.OnlyCommitsWrite` | internal/storage/postgres/store.go:87-90 | no action but a commit or an account opening changes a committed table |
| `Progress.CleanAbort` | internal/storage/postgres/store.go:87-90 | an abort at any statement leaves tables and all other sessions as they were and holds no lock |
| `Progress.OnlyAbortsLose` | internal/storage/postgres/store.go:87-90 | no statement gives up waiting: only an abort or a lost commit answer leaves a request without an answer |
| `Progress.HandOver` | internal/storage/postgres/store.go:95-104 | a duplicate blocked on a key wins the claim if the owner ends without committing, and goes on to read the reply if it commits |
| `Progress.LocksInOrder` | internal/storage/postgres/store.go:91-102 | in every state locks are wanted in the order key, accounts by ascending id, external reference |
| `Progress.RunnableAdvances` | internal/storage/postgres/store.go:91-158 | a session that is not waiting gets strictly closer to its answer by its next statement |
| `Progress.NoDeadlock` | internal/storage/postgres/store.go:238-246 | with any request unanswered, some session can take a step of its own that makes progress |
| `Progress.EverybodyCanFinish` | internal/storage/postgres/store.go:77-166 | from every reachable state all requests can be run to an answer without aborting any, and none loses its answer on the way |
| `Progress.NoCycleOfWaits` | internal/storage/postgres/store.go:67-72 | no reachable state has a cycle of waiting sessions |
| `PostgresStore.Store.ClaimKey` | internal/storage/postgres/store.go:175-185 | the claiming INSERT, updating the lock table and the transaction's rows in place, is the protocol's claim step: wins, waits, or finds the key taken |
| `PostgresStore.Store.ReplayStoredResponse` | internal/storage/postgres/store.go:188-221 | the reading branch is the protocol's read step: key reuse, missing reply or replay |
| `PostgresStore.Store.LockRow` | internal/storage/postgres/store.go:240-263 | one row of the locking SELECT: waits, or locks the row and reads its latest committed version |
| `PostgresStore.Store.CheckLocked` | internal/storage/postgres/store.go:265-271 | the loop that names the missing account, then the currency and funds checks, decide what the protocol's check step decides |
| `PostgresStore.Store.InsertTransaction` | internal/storage/postgres/store.go:275-291 | the transaction row with the unique reference: inserted, refused or waiting |
| `PostgresStore.Store.InsertLeg` | internal/storage/postgres/store.go:301-321 | one entry per leg in posting order |
| `PostgresStore.Store.UpdateBalances` | internal/storage/postgres/store.go:328-339 | the balance UPDATE with its range and floor constraints |
| `PostgresStore.Store.CommitTransaction` | internal/storage/postgres/store.go:154-166 | trigger, commit in place and the answer that may get lost are the protocol's commit step |
| `PostgresStore.Store.Rollback` | internal/storage/postgres/store.go:87-89 | the deferred rollback drops the private rows and releases the locks |
| `PostgresStore.Store.Interfere` | internal/storage/postgres/store.go:67-72 | statements of other sessions change nothing in this session's own record |
| `PostgresStore.Store.ClaimPhase` | internal/storage/postgres/store.go:91-100 | the claim is retried until the key is won or taken, or the others have nothing left to do |
| `PostgresStore.Store.LockPhase` | internal/storage/postgres/store.go:102-121 | rows are locked one at a time, whatever runs in between, until the verdict |
| `PostgresStore.Store.LockRows` | internal/storage/postgres/store.go:240-263 | the locking SELECT ends with every existing row locked and read, or after everything the others did; with nobody else holding a lock it never waits |
| `PostgresStore.Store.WritePhase` | internal/storage/postgres/store.go:275-323 | the transaction row and one entry per leg are written, or the call is over |
| `PostgresStore.Store.EntryPhase` | internal/storage/postgres/store.go:301-321 | the loop inserts both legs without ever waiting |
| `PostgresStore.Store.Transfer` | internal/storage/postgres/store.go:77-166 | the whole method, amid arbitrary statements of other sessions: its answer is the reference ledger's for an operation that took effect during the call, and is lost only with the connection, by a failing renderer or after all the others did; alone it posts if and only if the tables allow it, and then writes exactly that |
| `Retry.BackoffExact` | internal/outbox/relay.go:103-116 | for every n >= 1 the delay is min(2^(n-1), 300) seconds and no int64 operation overflows |
| `Retry.BackoffMonotone` | internal/outbox/relay.go:103-116 | later attempts never wait less |
| `Retry.IntervalExact` | internal/storage/postgres/outbox.go:189-192 | rendering in milliseconds loses nothing of any delay |
| `Retry.DelaysAddUp` | internal/outbox/relay.go:91-116 | the delays before the k-th retry add up to 2^k - 1 seconds below the cap |
| `OutboxInv.AttemptExtendsHistory` | internal/storage/postgres/outbox.go:156-187 | settling an attempt is appending its delivery row to the event's history |
| `OutboxInv.AttemptWaits` | internal/storage/postgres/outbox.go:115 | a relay only takes rows that are due, so it respects the delays |
| `OutboxSteps.ClaimRowKeeps` | internal/storage/postgres/outbox.go:107-118 | claiming with SKIP LOCKED keeps the delivery invariant: distinct rows, each locked by its holder and as it was read |
| `OutboxSteps.PublishKeeps` | internal/storage/postgres/outbox.go:140-145 | publishing and settling inside the transaction keeps it, every publication carrying the envelope of the row |
| `OutboxCommit.CommitKeeps` | internal/storage/postgres/outbox.go:147-150 | committing a batch keeps it: each event's row is what its longer history tells |
| `OutboxCommit.AbortKeeps` | internal/storage/postgres/outbox.go:96-99 | dying after publishing keeps it: what was accepted is counted as orphaned |
| `OutboxRuns.AlwaysInv` | internal/storage/postgres/outbox.go:87-257 | the delivery invariant holds after any interleaving of relays, replays, inserts and aborts |
| `OutboxRuns.StateIsToldByHistory` | internal/storage/postgres/outbox.go:156-203 | attempts counts the committed delivery rows, status is decided by the last one and the count of ten, last_error and published_at are told by them, and available_at is min(2^(n-1), 300) s after the n-th attempt failed |
| `OutboxRuns.AcceptedIsAccountedFor` | internal/storage/postgres/outbox.go:94-99 | accepted publications equal successful delivery rows plus those of aborted transactions plus those in flight |
| `OutboxRuns.AcceptedCounts` | internal/storage/postgres/outbox.go:94-99 | the publications counted are those that were accepted and carry the event's id |
| `OutboxRuns.TriedMeanwhile` | internal/storage/postgres/outbox.go:115 | an event that by its deliveries may be tried now, and is no longer pending and available later, has been tried in between |
| `OutboxRuns.AtLeastOnce` | internal/storage/postgres/outbox.go:94-99 | no event is marked published that was not accepted at least once |
| `OutboxRuns.OneEnvelope` | internal/outbox/event.go:142-155 | all publications of one event carry the same envelope |
| `OutboxRuns.HoldersAreDisjoint` | internal/storage/postgres/outbox.go:90-93 | no two open transactions hold the same event |
| `OutboxRuns.TenthAttemptFails` | internal/storage/postgres/outbox.go:170-187 | an event tried only by relays fails for good on exactly its tenth committed attempt, at least 511 s after the first, and no attempt follows a success |
| `OutboxRuns.FailedNeverPendingAgain` | internal/storage/postgres/outbox.go:205-225 | after any further run a failed event is failed or published, never pending: no relay takes it up again |
| `OutboxRuns.FailedReplayOfPublished` | internal/storage/postgres/outbox.go:170-187 | a failing replay of a published event makes it pending again below the limit and failed from it on, keeping published_at |
| `OutboxRuns.BatchLowersPotential` | internal/outbox/relay.go:72-84 | a committed batch lowers the sum of attempts left on pending events by at least its length, whatever the publisher did |
| `OutboxRuns.RelaysExhaustPotential` | internal/outbox/relay.go:72-84 | all relays together never dispatch more than that potential while no transfer or replay commits, however the clock moves |
| `OutboxRuns.CalmStep` | internal/outbox/relay.go:72-84 | while only relays run, no action raises the potential |
| `Relay.OutboxStore.SettleAttempt` | internal/storage/postgres/outbox.go:156-187 | the branches on success, failure and exhaustion update the private row and append the delivery row as the delivery machine says |
| `Relay.OutboxStore.CommitBatch` | internal/storage/postgres/outbox.go:147-150 | the commit makes the settled rows and their deliveries visible and frees the locks |
| `Relay.OutboxStore.Oldest` | internal/storage/postgres/outbox.go:116 | the scan finds a candidate that no other precedes by creation time |
| `Relay.OutboxStore.ClaimPhase` | internal/storage/postgres/outbox.go:107-138 | never more than the limit; undisturbed, exactly the oldest pending and available events up to it, whatever has been tried before; the transaction may die after any row |
| `Relay.OutboxStore.ClaimBatch` | internal/storage/postgres/outbox.go:101-138 | begin and claim: an empty batch ends the call; undisturbed, an empty batch means nothing is due and a short one holds all that is |
| `Relay.OutboxStore.PublishPhase` | internal/storage/postgres/outbox.go:140-145 | every claimed event is published and settled once, unless the transaction dies after some attempt |
| `Relay.OutboxStore.FinishBatch` | internal/storage/postgres/outbox.go:140-150 | a transaction that commits settles the whole batch and lowers the potential by its length, whether or not its answer arrives; undisturbed, no event of the batch is due any more; one that dies reports nothing |
| `Relay.OutboxStore.DispatchBatch` | internal/storage/postgres/outbox.go:100-151 | the whole method amid other deliveries, dying anywhere or losing its answer: a reported batch lowers the potential by its length; alone it takes min(limit, number of pending and available events), the oldest, adds one delivery row and one publication for each with the publisher's answer, and if that is below the limit nothing is due any more |
| `Relay.OutboxStore.Drain` | internal/outbox/relay.go:72-84 | the drain loop stops: (batches - 1) * batchSize is at most the potential it used up, with time passing and other relays running; undisturbed and with no transaction dying it leaves no event due, and every event that was never tried, or failed fewer than ten times and has waited long enough, has one more delivery |
| `Relay.OutboxStore.ReplayLock` | internal/storage/postgres/outbox.go:219-220 | waits for the row whatever its status, ends on an unknown event, and never waits when nobody holds a row |
| `Relay.OutboxStore.ReplayEvent` | internal/storage/postgres/outbox.go:210-257 | the event and the delivery read back inside the transaction are the committed event and its last committed delivery, and the delivery records what the publisher answered to a publication of this event; alone it adds exactly one row and one publication, and fails only for an unknown event; it gives up waiting for the row only after everything the others did |
| `Relay.CommitSettlesNow` | internal/storage/postgres/outbox.go:156-187 | after the commit of a batch none of its events is due at the time of the attempt and all others are as before |
| `Deadlock.JointlyOrdered` | internal/storage/postgres/outbox.go:87-93 | with relays that never wait and replays that wait holding nothing, transfers and deliveries together want locks only above those they hold |
| `Deadlock.NoJointCycle` | internal/storage/postgres/outbox.go:216-220 | no reachable state of transfers and deliveries together has a cycle of waits |
| `Deadlock.SomebodyAlwaysRuns` | internal/storage/postgres/outbox.go:216-220 | with any transfer or delivery unfinished, somebody can take a step of its own |
| `EndToEnd.AlwaysGood` | internal/storage/postgres/store.go:132-141 | after any run the delivery machine has exactly the events that committed transfers inserted, saying the same |
| `EndToEnd.CommitEmits` | internal/storage/postgres/store.go:132-156 | a commit makes one new event visible, in the same step as its transaction |
| `EndToEnd.HappenedIsAnnounced` | internal/storage/postgres/store.go:132-141 | every committed transaction has its event in the delivery machine, telling its row and its two legs field by field |
| `Completion.SomethingAdvances` | internal/storage/postgres/outbox.go:87-93 | while any transfer, relay or replay is unfinished, somebody's own next statement brings the whole strictly closer to its end |
| `Completion.EverythingCanFinish` | internal/storage/postgres/outbox.go:216-220 | from every reachable state all transfers and deliveries together can be run to their end by their own statements, nobody being aborted |
| `EndToEnd.PublishedMeansHappened` | internal/storage/postgres/store.go:132-141 | every envelope ever published tells field by field the event, its time, and a committed transaction with exactly its two opposite legs |
| `Migrations.FileNameRoundTrip` | internal/storage/postgres/migrate.go:34-35 | a name in the documented form is read back with any zero padding, any int64 version from 0 on and even with dots in the name |
| `MigrationNames.MigrationFilesAre` | internal/storage/postgres/migrate.go:44-46 | plain files ending in .sql count as migrations, and nothing else |
| `MigrationNames.VersionsAre` | internal/storage/postgres/migrate.go:56-59 | a version is an optional sign and decimal digits that make an int64 |
| `MigrationNames.VersionsAreDecimal` | internal/storage/postgres/migrate.go:56-59 | 0002, 10, -7 and +7 are read as 2, 10, -7 and 7 |
| `MigrationNames.NameRefused` | internal/storage/postgres/migrate.go:52-55 | a name without an underscore, or starting with one, is refused |
| `MigrationNames.VersionRefused` | internal/storage/postgres/migrate.go:56-59 | a name without a version before the underscore is refused |
| `MigrationNames.DirectionRefused` | internal/storage/postgres/migrate.go:72-79 | a name with another extension than .up or .down, or none, is refused |
| `MigrationNames.DocumentedDirectoryLoads` | internal/storage/postgres/migrate.go:34-93 | a directory of documented files loads: each version once, with the body and checksum of its up file, the body of its down file or none, and the name in its first file; other files do not matter |
| `Migrations.DenotesOne` | internal/storage/postgres/migrate.go:82-92 | a directory denotes one list, whatever the iteration order of the version map |
| `Migrations.SortByVersion` | internal/storage/postgres/migrate.go:91 | in place: strictly ascending versions and the same elements |
| `Migrations.Finish` | internal/storage/postgres/migrate.go:82-92 | walking the map in any order gives the list the directory denotes, or names a version without an up body |
| `Migrations.LoadMigrations` | internal/storage/postgres/migrate.go:36-93 | succeeds exactly when every migration file is readable and every version has an up body; then each version appears once, ascending, with its first name, last bodies and checksum; otherwise it names the first unreadable file or a version without an up body |
| `Migrator.Database.Apply` | internal/storage/postgres/migrate.go:215-243 | body and bookkeeping both or neither, and a commit whose answer is lost |
| `Migrator.Database.MigrateUp` | internal/storage/postgres/migrate.go:131-171 | the loop computes the recursive description of Up: state, count and error |
| `Migrator.Database.MigrateDown` | internal/storage/postgres/migrate.go:175-211 | the loop computes the recursive description of Down: state, count and error |
| `Migrator.Database.Version` | internal/storage/postgres/migrate.go:246-258 | the highest applied version, or 0 |
| `Migrator.HighestIsLast` | internal/storage/postgres/migrate.go:246-258 | with the first k migrations in force that is the version of the k-th |
| `Migrator.UpSucceedsWhen` | internal/storage/postgres/migrate.go:152-170 | Up reports no error if and only if every missing migration applies on top of those before it and its commit is heard of; then it has applied them all |
| `Migrator.UpFromSucceedsWhen` | internal/storage/postgres/migrate.go:152-170 | otherwise it stops at the first that does not, with the count before it and that version in the error |
| `Migrator.DownSucceedsWhen` | internal/storage/postgres/migrate.go:196-210 | Down n reports no error if and only if each of the newest n applied migrations has a down body that runs and a commit that is heard of |
| `Migrator.UpExtends` | internal/storage/postgres/migrate.go:152-170 | Up only lengthens the prefix in force, by its count and one more after a lost answer, and reaches the end unless it reports an error |
| `Migrator.DownShortens` | internal/storage/postgres/migrate.go:196-210 | Down only shortens the prefix in force, by min(n, what is applied) unless it reports an error |
| `Migrator.AlwaysAPrefix` | internal/storage/postgres/migrate.go:131-243 | after any sequence of Up and Down runs failing anywhere, bookkeeping and schema are those of the first k migrations for some k; programs may differ in age as long as none rolls back that is older than one that migrated before |
| `Migrator.FixedListAlwaysAPrefix` | internal/storage/postgres/migrate.go:131-243 | with one fixed list: after any sequence of Up and Down runs, each failing at any migration or not at all, the migrations in force are the first k for some k |
| `Migrator.DownKeepsPrefixWhen` | internal/storage/postgres/migrate.go:196-210 | Down leaves a prefix applied if and only if its program knows every applied migration, or the first rollback it would make is not asked for, has no down body, fails or is undone |
| `Migrator.OldProgramLeavesGap` | internal/storage/postgres/migrate.go:196-210 | at an input: two migrations in force, and Down 1 by a program that knows only the first succeeds and leaves only the second |
| `Migrator.UpCompletes` | internal/storage/postgres/migrate.go:152-170 | a successful Up applies exactly what was missing and records every migration with its name and checksum |
| `Migrator.SecondUpDoesNothing` | internal/storage/postgres/migrate.go:152-170 | a second Up applies 0 and changes nothing |
| `Migrator.DownThenUpRestores` | internal/storage/postgres/migrate.go:173-211 | a successful Down n followed by a successful Up restores bookkeeping and schema |
| `Migrator.EditedIsRefused` | internal/storage/postgres/migrate.go:154-161 | Up with an applied migration edited stops at the first one edited and changes nothing |
| `JsonGrammar.ScansNumber` | internal/idempotency/idempotency.go:86-92 | a number of the grammar is read part by part wherever the text after it starts with nothing the number could take in |
| `JsonGrammar.ReadsPieces` | internal/idempotency/idempotency.go:90-95 | a string of the grammar, escapes and surrogate pairs included, is read as its text |
| `JsonReading.ReadsDoc` | internal/idempotency/idempotency.go:90-95 | every derivation of the grammar within the depth limit, in any layout, is read as its meaning |
| `JsonSoundness.ReadValue` | internal/idempotency/idempotency.go:90-95 | whatever is read was spelled by a derivation of the grammar with that meaning |
| `JsonObjects.SameMapSameFields` | internal/idempotency/idempotency.go:97-99 | two key-sorted field lists that agree as maps are equal |
| `JsonObjects.PutLookup` | internal/idempotency/idempotency.go:90-95 | storing a member is a map update: the last value of a key wins |
| `JsonWriting.PrintSpells` | internal/idempotency/idempotency.go:97-100 | the writer spells a derivation of the grammar that means the value written |
| `JsonReference.EveryWritingDenotes` | internal/idempotency/idempotency.go:90-95 | for every string, each way of writing its characters that section 7 allows denotes it: as they are, by the eight short escapes, by hex digits in any mixture of cases, surrogate pairs included |
| `JsonReference.LoneSurrogateDenotes` | internal/idempotency/idempotency.go:90-95 | a lone surrogate escape is read as the replacement character |
| `JsonReference.ControlCharactersRefused` | internal/idempotency/idempotency.go:90-95 | a control character inside a string makes the text denote nothing |
| `JsonReference.WhiteSpaceIs` | internal/idempotency/idempotency.go:90-95 | exactly space, tab, line feed and carriage return may stand before a value |
| `JsonReference.WordsDenote` | internal/idempotency/idempotency.go:90-95 | null, true and false denote what they say |
| `JsonReference.NumbersDenote` | internal/idempotency/idempotency.go:86-92 | a text denotes the number of that text if and only if it has the four parts of section 6 |
| `JsonReference.ArraysDenote` | internal/idempotency/idempotency.go:90-95 | values in brackets separated by commas denote their array, one level deeper |
| `JsonReference.ObjectsDenote` | internal/idempotency/idempotency.go:90-95 | members in braces denote the object in which each key has its last value |
| `JsonReference.DepthLimit` | internal/idempotency/idempotency.go:90-95 | nesting is accepted if and only if it is at most 10000 deep |
| `JsonReference.KeysOrderedByCodePoint` | internal/idempotency/idempotency.go:97-99 | keys are ordered by the first character in which they differ, prefixes first |
| `JsonReference.MembersAreOrdered` | internal/idempotency/idempotency.go:97-100 | an amount and a currency in either order have one canonical text, keys ascending and without white space |
| `Fingerprint.CanonicalIsSafe` | internal/idempotency/idempotency.go:97-100 | a canonical text has no control character, no <, > or & and no line or paragraph separator |
| `Fingerprint.DecodeMeetsGrammar` | internal/idempotency/idempotency.go:90-95 | a body is read as v with only white space left over if and only if it is a JSON text denoting v |
| `Fingerprint.DecoderReadsFirstValue` | internal/idempotency/idempotency.go:88-95 | the decoder reads v and leaves a rest if and only if the body begins with a value of the grammar that means v and ends where the rest begins |
| `Fingerprint.DenotesOneValue` | internal/idempotency/idempotency.go:90-95 | no text denotes two values |
| `Fingerprint.ParseUndoesPrint` | internal/idempotency/idempotency.go:78-101 | reading undoes writing and leaves nothing over |
| `Fingerprint.RefusedExactlyWhen` | internal/idempotency/idempotency.go:78-101 | an empty body is canonical as it is, and any other is refused if and only if it begins with no JSON value |
| `Fingerprint.CanonicalIsIdempotent` | internal/idempotency/idempotency.go:78-101 | the canonical form is its own canonical form and says what the body says |
| `Fingerprint.CanonicalMeansContent` | internal/idempotency/idempotency.go:54-60 | two bodies have the same canonical form if and only if both are empty or both hold the same JSON value |
| `Fingerprint.CanonicalMeansValue` | internal/idempotency/idempotency.go:54-60 | two JSON texts have the same canonical form if and only if they denote the same value |
| `Fingerprint.SharedFormWhen` | internal/idempotency/idempotency.go:78-101 | any other body shares the canonical form of a JSON text if and only if it begins with the same value |
| `Fingerprint.RestIsPassedOver` | internal/idempotency/idempotency.go:88-95 | a body and its first value alone canonicalise alike, and only white space was passed over if and only if the body is a JSON text |
| `Fingerprint.TrailingTextIsPassedOver` | internal/idempotency/idempotency.go:88-95 | at an input: text after an object is passed over although the whole denotes nothing |
| `Fingerprint.LayoutIsIrrelevant` | internal/idempotency/idempotency.go:54-60 | any two JSON texts of one value canonicalise alike, whatever their white space, escapes and order of members |
| `Fingerprint.MembersAsMap` | internal/idempotency/idempotency.go:97-99 | an object read member by member is the map of the last value of each key |
| `Fingerprint.ObjectsAreMaps` | internal/idempotency/idempotency.go:97-99 | two objects are the same value if and only if their members agree as maps |
| `Fingerprint.NumbersAreLiteral` | internal/idempotency/idempotency.go:86-92 | two numbers canonicalise alike if and only if their literals are the same text |
| `Fingerprint.CanonicalOneLine` | internal/idempotency/idempotency.go:97-100 | a canonical body has no line break |
| `Fingerprint.FramingIsUnique` | internal/idempotency/idempotency.go:67-72 | equal preimages have equal method, path and body whenever the methods and the canonical bodies are one line; the path may have line breaks |
| `Fingerprint.MethodsMustBeOneLine` | internal/idempotency/idempotency.go:67-72 | with a line break in the method two different requests have the same preimage |
| `Fingerprint.Fingerprint` | internal/idempotency/idempotency.go:61-74 | feeding the hash piece by piece hashes method, line break, path, line break, canonical body; a malformed body is the only error |
| `Fingerprint.FingerprintIdentifies` | internal/idempotency/idempotency.go:51-60 | for an injective hash, equal fingerprints if and only if equal method, equal path and equal content of the body |
| `Fingerprint.ValidateKey` | internal/idempotency/idempotency.go:37-52 | accepts exactly the non-empty printable-ASCII keys of at most 255 characters, and distinguishes the missing key |

## Left out

- HTTP routing, problem documents, logging, configuration and the command binaries: wiring.
- `GetTransaction`, `GetAccount`, `GetEvent` and `Deliveries`: single reads of rows whose contents the invariants describe.
- Account names and kinds, and the creation times of accounts, transactions and entries: no rule reads them.
- Integer overflow of the attempt counter and of the clock: attempts would need 2^31 replays of one event.
- The order in which PostgreSQL scans equally old due events: the model allows any.
- SHA-256, UUID generation, the SQL parser and PostgreSQL's own lock manager: see the assumptions.
- Invalid UTF-8 in bodies and paths: the decoder replaces it in bodies, so such bodies may share a fingerprint.
- Go's case-insensitive matching of field names when a command is decoded: equal fingerprints are stated over JSON values, not over commands.
- `sort.Slice` is Go's own; `Migrations.SortByVersion` is an insertion sort with the same result on distinct versions.
- The wall-clock ticker and the shutdown of `Relay.Run`: only its inner loop is modelled.
- The advisory lock of the migrator: runs follow one another, as it ensures.
- Key expiry, reconciliation, reversals, caches and message brokers: described or prepared for in the schema, but there is no code.
