# Payment gateway: a verified model

The payment lifecycle, the double-entry ledger, the Redis idempotency protocol, the rate limiter and the webhook
retries of the payment gateway, modelled in Dafny 4.11 and proved correct. `dafny verify dfyconfig.toml` checks it all.

## How it is built

The engine is described three times, and the three are proved to agree.

1. **Atomic steps** (`Services`): each service call as one function from tables and request to tables and answer.
   `Invariants` gives the invariant of the four tables and shows that every call keeps it; `Conservation` says what it
   means for money, `Guarantees` when exactly each call changes anything, `Outcomes` what exactly it does and answers, told
   by the rows alone, `Confluence` when exactly the order of bank callbacks matters.
2. **The services as written** (`Gateway`): a class whose methods look up, assign, post, commit or roll back in the
   order of the source. Each is proved to do exactly what the atomic step does.
3. **Concurrent sessions** (`Sessions`): every request is a session with a program counter, the row locks it holds and
   the rows it has read. Locks are taken one at a time, commits overwrite rows with values computed from what was read,
   any session may crash at any point. `Refinement` and `System` show that a locked row always equals its holder's copy
   and that every commit is one atomic step; `Runs` lifts that to whole runs (linearizability), `Progress` shows freedom
   from deadlock and termination, `Retries` says what repeated requests are answered, `Notifications` treats the outbox
   and `LostNotifications` says exactly which rows it never gets, and `ConcurrentCallbacks` carries confluence over to
   interleaved deliveries, crashes included.

`Idempotency` is a second machine of concurrent requests around one Redis store, `RateLimit` and `Backoff` are about
times and counts, `Schemas` about the payer address. `Stack` composes the idempotency protocol, the limiter and the
services in the order in which app/main.py stacks them. `Sums`, `StateMachine`, `Tables` and `Ledger` hold the vocabulary.

## Assumptions

- Amounts are whole ten-thousandths. The request schema admits 1 to 10^18 - 1 of them (app/schemas/payment.py:25-31) and
  a balance column holds fewer than 10^18 (app/models/ledger.py:64-66); a commit beyond that fails and rolls back.
- A locked read returns the latest committed row; reads without a lock see committed rows only. This is the intention
  stated at app/services/payment.py:56-57, not a claim about the ORM's identity map.
- `new_id` and `uuid4` never hand out the same identifier twice. Each request carries the identifiers it will be given.
  One identifier stands for a row's primary key and its public id.
- Inserting a unique value that another session has inserted but not committed waits for that session.
- Each of the Redis operations is atomic, and an idempotency key does not expire while requests for it are running.

## Where the code and its documentation differ

The model follows the code. The differences below are stated as theorems.

- app/services/order.py:30 calls the key scoped per merchant; the column is unique across merchants
  (app/models/payment.py:60-62). A request is refused exactly when another merchant holds its key
  (`OrderOutcome`, `KeyIsNotScopedPerMerchant`).
- app/services/order.py:64 reports a different payload; payloads are never compared. A request whose look-up found nothing
  is refused exactly when another merchant held its key already, or the key was committed between its look-up and its
  insert (`RacingRetryIsRefused`, `OrderIsAnswered`) - even by an identical request (`IdenticalRequestsMayConflict`).
- app/middleware/idempotency.py:11 promises 409 to a retry before completion; a retry that reads between the first
  request's two writes is told 200 with an empty body (`RetryWhileRunning`, `LoserIsTold`, `RetryMayBeToldOk`).
- ARCHITECTURE.md:48 says failed requests free the key. A step frees a key exactly when it concludes a reply outside
  200..499 (`FreedExactlyWhen`, `FailureFreesTheKey`), and no endpoint gives such a reply, so no key is ever freed
  (`NeverFreed`). A failed request either raises, and then its key stays taken for good (`AbandonedExactlyWhen`,
  `AbandonedForEver`; which requests raise: `HandlerAbandonsExactlyWhen`), or its error is cached like a success.
- A 429 is cached too, because the limiter sits inside the idempotency middleware (app/main.py:33-35): a key whose first
  request was turned away never succeeds (`LimitedForEver`, `KeyMayBeSpent`).
- ARCHITECTURE.md:72-74 speaks of a durable outbox and of at most 5 attempts. The row is written in a second transaction:
  it is never written exactly when the session that finished the transaction dies in between, or has no URL to notify
  (`NotifiedExactlyWhen`, `LostForEver`, `NotificationMayBeLost`); and 5 retries are 6 attempts (`Deliver`).
- app/models/ledger.py:63 gives accounts a currency; postings always book INR, whatever the intent's currency
  (`InrBooksExactWhenAllInr`, `DollarPaymentIsBookedInInr`).
- app/middleware/rate_limit.py:33 calls the window sliding; a minute is bounded by 120 exactly when it starts with a
  bucket (`SlidingExactlyWhen`), and 240 requests can pass within two milliseconds (`DoubleLimitAtTheTurn`).

## Model

| member | source | states |
|---|---|---|
| Schemas.NormalizedExactlyWhen | app/schemas/payment.py:53-59 | which addresses are accepted and as what: stripped of the blanks around them they have 5 to 255 characters, one of them '@', and capitals become small letters |
| Schemas.NormalizedIsStable | app/schemas/payment.py:53-59 | an accepted address is valid and would be accepted again unchanged |
| Schemas.SpellingIsIrrelevant | app/schemas/payment.py:56 | surrounding blanks and letter case do not make another payer |
| Sums.Single | app/services/webhook.py:121-128 | a look-up yields no row, the one matching row, or an error exactly when two rows match |
| Tables.SettlementAccount | app/services/webhook.py:187 | a merchant's account identifier contains no '@' and fits 128 characters |
| Tables.SettlementAccountInjective | app/services/webhook.py:187 | two merchants never share a settlement account |
| Ledger.EntriesForCounts | app/models/ledger.py:75-89 | reading the history by transaction loses no entry and invents none |
| StateMachine.MovesGoOneStepOn | app/services/state_machine.py:17-30 | both tables are one pipeline forking at its end: legal moves are exactly those one step on, and the same for an intent and its transaction |
| Invariants.EmptyInv | alembic/versions/0001_initial.py:38-112 | the empty schema satisfies the invariant |
| Invariants.OrderKeepsInv | app/services/order.py:33-65 | order creation keeps keys unique, amounts valid and the ledger untouched |
| Invariants.AttemptedKeepsInv | app/services/payment.py:100-119 | opening a payment attempt keeps intent and transaction coupled, references unique and one attempt per intent |
| Invariants.InitiateKeepsInv | app/services/payment.py:59-119 | every branch of initiation keeps the invariant |
| Invariants.FailedKeepsInv | app/services/webhook.py:163-174 | a failed payment moves both rows together and posts nothing |
| Invariants.SettleKeepsInv | app/services/webhook.py:173-220 | a settled payment moves both rows, posts one debit and one credit, and keeps every running balance equal to its entries and to the payments it stands for |
| Invariants.SettleOwed | app/services/webhook.py:191-194 | after a settlement each balance is still the sum of the settled payments on its account |
| Invariants.SettlePostedOnce | app/services/webhook.py:196-211 | after a settlement each settled transaction has exactly its two entries and no other has any |
| Invariants.PostedIndexed | app/services/webhook.py:191-211 | a posting keeps each running balance equal to the sum of its side of the history |
| Invariants.EventKeepsInv | app/services/webhook.py:139-220 | every branch of a callback keeps the invariant |
| Invariants.StepKeepsInv | app/services/webhook.py:117-235 | every request, accepted or refused, keeps the whole invariant |
| Conservation.VirtualBalance | app/services/webhook.py:191-211 | a payer's balance is the sum of its debits and of the settled payments from its address; it has no credits |
| Conservation.SettlementBalance | app/services/webhook.py:191-211 | a merchant's balance is the sum of its credits and of its SUCCESS intents; it has no debits |
| Conservation.BooksBalance | app/services/webhook.py:176-211 | total debits equal total credits equal the total of SUCCESS intents |
| Conservation.PostedExactlyOnce | app/services/webhook.py:196-211 | a SUCCESS transaction has its debit and its credit in the history once each, for the intent's amount; nothing else is ever posted |
| Conservation.LedgerDetermined | app/services/webhook.py:176-211 | intents and transactions alone determine all accounts, balances and the collection of entries |
| Conservation.InrBooksExactWhenAllInr | app/services/webhook.py:94-102 | the INR books equal the INR payments exactly when no other currency was paid |
| Conservation.DollarPaymentIsBookedInInr | app/services/webhook.py:196-211 | order, opening and callback of one dollar payment lead an empty gateway to a state whose books show 5 INR where no INR was paid |
| Guarantees.StepExtends | app/services/webhook.py:163-211 | no request loses a row, rewrites an entry, lowers a balance or moves a row against the transition tables |
| Guarantees.TerminalRowsAreFinal | app/services/state_machine.py:17-30 | SUCCESS and FAILED rows never change again |
| Guarantees.AccountKinds | app/services/webhook.py:85-114 | payer and merchant identifiers cannot collide, so the row found is of the wanted type |
| Guarantees.AccountLookupsNeverFail | app/services/webhook.py:94-114 | in a reachable state only an over-long address or a full balance can stop a posting |
| Guarantees.RowLookupsNeverAmbiguous | app/services/payment.py:78-86 | no look-up by key, by order and payer or by reference can match two rows |
| Guarantees.CallbackChangesExactlyWhen | app/services/webhook.py:121-171 | a callback changes anything exactly when it names a pending transaction with the right amount and, on success, the payment fits |
| Guarantees.AppliedExactlyWhen | app/services/webhook.py:229-235 | a callback is answered as applied exactly when it changed the tables, with the state it gave |
| Guarantees.CallbackErrorExactlyWhen | app/services/webhook.py:94-220 | of all look-ups and commits of a callback only the commit of a payment that does not fit can fail |
| Guarantees.ServerErrorExactlyWhen | app/services/webhook.py:94-220 | the same for every request: no other look-up or commit fails |
| Guarantees.RaisesExactlyWhen | app/api/v1/webhooks.py:98-106 | a request ends in an exception no endpoint catches exactly when it is an unfit success callback, a callback contradicting a finished transaction, or an initiation of an order already being paid from another address; it changes nothing |
| Guarantees.ReplayedInitiationIsPending | app/services/payment.py:78-98 | the state, payer and reference answered by initiation, replayed or new, are those stored; and every pending attempt repeated by its payer is answered so |
| Guarantees.InitiationOpensExactlyWhen | app/services/payment.py:59-119 | an order is opened exactly when it is the merchant's own and was never opened before |
| Guarantees.CouplingIsExact | app/services/state_machine.py:17-30 | an intent has at most one transaction and each of its four statuses holds exactly when that transaction is absent, pending, successful or failed |
| Guarantees.OrderOutcome | app/services/order.py:33-65 | a key is refused exactly when another merchant holds it; otherwise the answer is the stored order |
| Guarantees.KeyIsNotScopedPerMerchant | app/models/payment.py:60-62 | a second merchant choosing a used key is refused |
| Outcomes.OrderAnswers | app/services/order.py:33-80 | a free key makes a new order of the request's own terms, the merchant's own key is answered with the stored order, another's is refused |
| Outcomes.InitiationAnswers | app/services/payment.py:59-136 | which initiation is answered how, each answer exactly when, and the two rows written when an order is opened |
| Outcomes.CallbackAnswers | app/services/webhook.py:121-235 | unknown reference, wrong amount, replay, contradiction, failure and application: each answer of a callback exactly when |
| Outcomes.CallbackDoes | app/services/webhook.py:163-220 | an applied callback moves its two rows and, on success, is posted in INR; any other changes nothing |
| Outcomes.DoubleEntryDoes | app/services/ledger.py:77-112 | in any currency: one debit, one credit, both accounts raised or created with their type and owner, nothing else |
| Confluence.ApplyIdempotent | app/services/webhook.py:144-161 | delivering a callback twice is delivering it once |
| Confluence.InertPersists | app/services/webhook.py:139-171 | a callback with nothing left to do never gets anything to do |
| Confluence.FirstWins | app/services/webhook.py:163-174 | of contradictory callbacks the first effective one decides |
| Confluence.SomethingIsRefused | app/services/webhook.py:191-220 | payments that overflow an account together cannot all settle |
| Confluence.OrderIrrelevant | app/services/webhook.py:139-211 | two deliveries of the same set of callbacks end in the same rows, balances and entries |
| Confluence.OrderIrrelevantExactlyWhen | app/services/webhook.py:139-211 | order and duplicates are irrelevant exactly when no payable payment is also reported failed and all payable payments fit together; otherwise some permutation ends differently |
| Gateway.Gateway.ScalarOneOrNone | app/services/payment.py:78-86 | the executable look-up is the specified one |
| Gateway.Gateway.CreateOrder | app/services/order.py:25-80 | does exactly the atomic order step |
| Gateway.Gateway.InitiateUpi | app/services/payment.py:51-136 | does exactly the atomic initiation step |
| Gateway.Gateway.EnsureAccountLocked | app/services/webhook.py:85-114 | inserts the account unless it exists; finds it exactly when its type matches and its name fits |
| Gateway.Gateway.Rollback | app/services/webhook.py:169-171 | restores all four tables |
| Gateway.Gateway.PostDoubleEntry | app/services/ledger.py:63-121 | posts both entries and raises both balances exactly when the amount is positive and both accounts can be fetched |
| Gateway.Gateway.PostInline | app/services/webhook.py:176-211 | posts exactly when the posting is possible and no balance overflows |
| Gateway.Gateway.Advance | app/services/webhook.py:163-220 | moves both rows and posts, or leaves everything as it was |
| Gateway.Gateway.ProcessBankCallback | app/services/webhook.py:117-235 | does exactly the atomic callback step, rollbacks included |
| Gateway.Gateway.BankCallback | app/api/v1/webhooks.py:97-144 | adds one outbox row exactly when this callback finished the transaction and the merchant has a URL |
| Gateway.EnsureThenRaise | app/services/webhook.py:178-194 | creating both accounts and then raising both balances is one deposit after the other |
| Gateway.PostingsAgree | app/services/ledger.py:77-112 | in reachable states the zero-amount guard that only one implementation has never fires, its look-ups fail only on an over-long address, and for INR it writes the same rows and can be committed exactly when the callback's posting is possible |
| Refinement.SnapshotStable | app/services/webhook.py:121-137 | what a session read under lock survives every commit of the others |
| Refinement.PostingReady | app/services/webhook.py:178-211 | balances computed from the locked copies are the balances of the atomic posting |
| Refinement.EveryMoveOk | app/services/webhook.py:121-220 | every move of every session is one atomic step or invisible, and writes only rows it has locked |
| System.NewLocksAreFree | app/services/webhook.py:105-112 | a session only ever adds locks that no other holds |
| System.OthersUnharmed | app/services/payment.py:59-67 | a move keeps the other sessions' copies, fresh identifiers and given answers true |
| System.PerformKeepsInv | app/services/webhook.py:117-220 | arrival, progress and crash of any session keep the invariant of tables, locks, copies and answers |
| Runs.StepRefines | app/services/webhook.py:220 | an answering step is an atomic call, every other step leaves the tables alone |
| Runs.RunIsSequential | app/services/webhook.py:121-220 | from any reachable state a run ends where its answered calls, run one by one, end |
| Runs.Linearizable | app/services/webhook.py:121-220 | every run from the empty system is a sequence of atomic calls, one per answer given |
| Runs.EveryMoment | app/services/webhook.py:128-211 | at every moment of every run the invariant holds and nothing earlier was lost |
| Runs.AcceptedOrdersAgree | app/services/order.py:33-65 | all successful answers for one key carry the same order, amount, currency and merchant |
| Runs.InitiationsAgree | app/services/payment.py:78-98 | all payers answered for one order hold the same transaction and reference |
| Runs.RacingRetryIsRefused | app/services/order.py:58-65 | over a run from look-up to insert: an order is refused exactly when another merchant held its key at the look-up, or the key was committed since |
| Runs.IdenticalRequestsMayConflict | app/services/order.py:33-65 | a run in which one of two identical requests is refused |
| Runs.SessionsArrived | app/api/v1/webhooks.py:101-121 | every session arrived once, with its request and its merchant |
| Retries.RetriesAreConfirmed | app/services/webhook.py:144-161 | over any run, once a request was granted every later repetition is confirmed: a callback by a replay of the same transaction and state, an initiation by the same transaction and reference until the order is finished, an order by the same order and terms unless it was overtaken |
| Retries.OrderIsAnswered | app/services/order.py:33-80 | from arrival to answer, whatever runs beside it: an order whose look-up finds its merchant's own is answered with it; else it is refused exactly when another merchant held the key or the key was committed before the answer; else it is made with its own terms |
| Progress.WaitsUpwards | app/services/webhook.py:121-189 | a session, the writer of an outbox row included, waits only for a lock ranked above all it holds |
| Progress.SomeoneCanMove | app/services/webhook.py:121-189 | while any session is unfinished, some session can move |
| Progress.RunsAreBounded | app/services/webhook.py:121-220 | no schedule lasts longer than the steps its sessions have left |
| Progress.EveryBatchFinishes | app/services/webhook.py:121-220 | from every reachable state all sessions can be run to their end |
| Notifications.PerformKeepsOutbox | app/api/v1/webhooks.py:121-144 | at most one outbox row per transaction, written after it is terminal, telling its state for ever; uninterrupted sessions always write it |
| Notifications.OutboxAlways | app/api/v1/webhooks.py:121-144 | the same in every run |
| LostNotifications.NotifiedExactlyWhen | app/api/v1/webhooks.py:101-140 | over any run: a transaction is terminal exactly when a call finished it; its row is written exactly when that call's session has a URL and ran to its end, and never will be exactly when the session has none or died |
| LostNotifications.CrashLosesNotification | app/api/v1/webhooks.py:139-140 | a session that dies between the two commits leaves the merchant unnotified |
| LostNotifications.LostForEver | app/services/webhook.py:144-161 | such a notification is never written later |
| LostNotifications.NotificationMayBeLost | app/api/v1/webhooks.py:101-140 | a run from the empty system - order, opening, declined callback, crash - that loses one |
| ConcurrentCallbacks.SequentialIsRun | app/services/webhook.py:117-235 | callbacks answered one by one are callbacks applied one by one |
| ConcurrentCallbacks.InterleavingIsIrrelevant | app/services/webhook.py:85-220 | two runs in which the same callbacks are answered, each at least once, in any interleaving and number and with any crashes, end in the same tables, if the payments do not conflict |
| ConcurrentCallbacks.InterleavingIrrelevantExactlyWhen | app/services/webhook.py:85-220 | from any reachable state, all runs that deliver a set of callbacks agree exactly when no payable payment is also reported failed and all payable payments fit together; otherwise two runs differ |
| ConcurrentCallbacks.AnsweredIsDelivered | app/api/v1/webhooks.py:48 | a bank that retries until each callback was answered once has delivered them, whatever crashed meanwhile |
| ConcurrentCallbacks.FinishedIsDelivered | app/services/webhook.py:117-235 | without crashes, every callback has been answered when all sessions have finished |
| ConcurrentCallbacks.Deliverable | app/services/webhook.py:117-235 | from any reachable state some run delivers any given sequence of callbacks in that order |
| Idempotency.PerformKeepsInv | app/middleware/idempotency.py:66-135 | every store operation, handler return and crash keeps the protocol's invariant |
| Idempotency.MutualExclusion | app/middleware/idempotency.py:66-135 | at every moment at most one request per key is between reserving and concluding |
| Idempotency.OneCacheableCompletion | app/middleware/idempotency.py:107-135 | at most one handler completion per key in a whole run has status 200 to 499 |
| Idempotency.RepliesAgree | app/middleware/idempotency.py:95-127 | the winner and everyone served from the cache get the same status and body |
| Idempotency.LoserIsTold | app/middleware/idempotency.py:73-99 | a loser is told the empty 200 exactly when some owner is, or died, between its two writes; the cached reply exactly when it was served; 409 exactly when an owner is, or died, past its second write or the key is free again |
| Idempotency.RetryWhileRunning | app/middleware/idempotency.py:85-105 | a retry during the first request gets 409 unless it reads between that request's two writes |
| Idempotency.RetryMayBeToldOk | app/middleware/idempotency.py:66-105 | a run in which a retry is told 200 before any handler completed |
| Idempotency.ConclusionStores | app/middleware/idempotency.py:109-135 | after an owner concludes a status in 200..499 the key holds exactly its reply, after any other status it is absent |
| Idempotency.RepliedForEver | app/middleware/idempotency.py:95-127 | after a status in 200..499 no later request under the key reaches its handler and each is answered with that very status and body |
| Idempotency.NextRequestServedExactlyWhen | app/middleware/idempotency.py:66-135 | the next request to begin under a concluded key gets to its handler exactly when the status was outside 200..499 |
| Idempotency.DeathAbandons | app/middleware/idempotency.py:107-135 | an owner that dies or whose handler raises leaves the key taken |
| Idempotency.AbandonedExactlyWhen | app/middleware/idempotency.py:107-135 | a key is taken, uncached and unowned exactly when some owner of it died or its handler raised |
| Idempotency.OwnerLeaves | app/middleware/idempotency.py:109-135 | the step that ends a hold frees the key exactly on a reply outside 200..499, caches exactly on any other reply, abandons exactly on death |
| Idempotency.FreedExactlyWhen | app/middleware/idempotency.py:133-135 | no other step of any request ever frees a key |
| Idempotency.RaisingHandlerAbandons | app/middleware/idempotency.py:66-135 | a run from the start in which a handler raises and its key stays taken |
| Idempotency.AbandonedForEver | app/middleware/idempotency.py:73-99 | no handler ever completes again for such a key |
| Idempotency.FailureFreesTheKey | app/middleware/idempotency.py:133-135 | a reply outside 200..499 frees the key for the next request |
| Idempotency.SoloRunIsDispatch | app/middleware/idempotency.py:66-137 | an undisturbed request of the protocol ends as the middleware method does, for every stored record and handler outcome |
| Idempotency.Redis.SetNx | app/middleware/idempotency.py:67-72 | reserves exactly when the key is absent |
| Idempotency.Redis.SetXx | app/middleware/idempotency.py:103-105 | overwrites only a present key |
| Idempotency.Redis.Dispatch | app/middleware/idempotency.py:54-137 | answer and store after one undisturbed request, for every stored record and handler outcome |
| Stack.EveryReplyIsCacheable | app/middleware/idempotency.py:110 | no endpoint, and not the limiter, replies with a status outside 200..499 |
| Stack.StatusTells | app/api/v1/payments.py:20-45 | the status of every admitted request, 201, 200, 404, 409, 422 or an uncaught exception, by the tables alone |
| Stack.MoveRefines | app/main.py:33-35 | every handled request counts against its client, those admitted are one atomic service call each, nothing else touches the tables |
| Stack.AfterKeepsInv | app/main.py:33-35 | every move of the whole stack - protocol step, limited or served request, crash - keeps the invariants of all its parts |
| Stack.AtMostOnePass | app/middleware/idempotency.py:66-135 | over a whole run at most one request per key gets to its handler, so at most one service call is made under a key |
| Stack.NeverFreed | app/middleware/idempotency.py:133-135 | a key once taken is never free again |
| Stack.AnswersTellThePass | app/middleware/idempotency.py:95-127 | everyone answered under a key is told how the one request that passed under it ended |
| Stack.LimitedForEver | app/middleware/rate_limit.py:65-74 | under a key whose request was limited no service call is ever made and every later reply is a 429 |
| Stack.KeyMayBeSpent | app/main.py:33-35 | a run from the empty system in which a client over its limit spends a new key |
| Stack.HandlerAbandonsExactlyWhen | app/middleware/idempotency.py:107 | a handler abandons its key exactly when the limiter admits the request and it is one of the three kinds that cannot be answered |
| RateLimit.NowMsTells | app/middleware/rate_limit.py:82-86 | the clock is the time in milliseconds, cut off below |
| RateLimit.SameCounterExactlyWhen | app/middleware/rate_limit.py:56-58 | two requests share a counter exactly when one identity makes them in the same minute |
| RateLimit.StoreIsExact | app/middleware/rate_limit.py:57-62 | the refreshed expiry never drops a bucket that can still be counted |
| RateLimit.CountIsExact | app/middleware/rate_limit.py:59-62 | the count is the number of requests of the identity in its bucket |
| RateLimit.SlowIncrementForgets | app/middleware/rate_limit.py:56-62 | the one-window delay assumed above is the longest possible |
| RateLimit.AdmittedPerBucket | app/middleware/rate_limit.py:64-74 | of n requests in a bucket exactly min(n, 120) are admitted |
| RateLimit.AnyIntervalIsBounded | app/middleware/rate_limit.py:52-80 | any k minutes admit at most 120 (k + 1) requests |
| RateLimit.SlidingExactlyWhen | app/middleware/rate_limit.py:52-80 | k minutes from any instant admit at most 120 k exactly when they start with a bucket; from every other instant 120 (k + 1) can pass |
| RateLimit.DoubleLimitAtTheTurn | app/middleware/rate_limit.py:52-80 | 240 requests pass within two milliseconds |
| RateLimit.Limiter.Dispatch | app/middleware/rate_limit.py:43-86 | admits exactly the first 120 of a bucket, tells how many are left, and as reset the second at which the minute began |
| Backoff.DelayDoubles | app/workers/tasks.py:28-32 | the first delay is base plus jitter, all but the jitter doubles from one attempt to the next, and 3600 is the cap |
| Backoff.DelaysNeverShrink | app/workers/tasks.py:28-32 | for any jitter successive delays never decrease and never exceed 3600 |
| Backoff.TotalGrowsGeometrically | app/workers/tasks.py:28-32 | n delays total at most base (2^n - 1 + n) |
| Backoff.TotalIsCapped | app/workers/tasks.py:28-32 | n delays total at most 3600 n |
| Backoff.WaitsNeverShrink | app/workers/tasks.py:28-32 | along a whole delivery the waits never decrease |
| Backoff.Deliver | app/workers/tasks.py:52-76 | delivers exactly if one of max_retries + 1 attempts succeeds, stops at the first success, and waits the prescribed delays |

## Left out

- Signatures, tokens, credential hashing, callback timestamps and JSON decoding: a callback starts as a verified event, reference and amount. An amount finer than a ten-thousandth equals no intent's amount and takes the mismatch branch like any other wrong amount.
- The decimal rules of the money field: only the range they guarantee is used.
- Schemas.NormalizedIsStable: only ASCII letters and blanks are lower-cased and stripped, because Unicode case mapping is library data.
- Schemas.SpellingIsIrrelevant: the same restriction to ASCII letters and blanks.
- PostgreSQL, SQLAlchemy and Redis themselves: tables with row locks, buffered writes and unique values, and atomic store operations, stand for them. Of the share locks that foreign keys take, the one that can meet another session's row lock is modelled: an outbox row waits for its transaction. All others are on rows the session has locked itself or on merchants, which nobody locks.
- Merchant rows: a merchant is its id and whether it has a webhook URL. The outbox row's URL, payload and signature are not modelled.
- Delivery state and attempt counts, which the worker never updates, and redelivery after a lost worker.
- Settlement payouts, which ARCHITECTURE.md:62-65 describes and the code does not contain.
- Reconciliation, which only reads and logs.
- Expiry of an idempotency key while its request runs, and replacement of invalid UTF-8 in cached bodies: replies carry text.
- Requests without an idempotency key outside `Stack`, and paths without a limit, which the middlewares pass through.
- Replies given before a service is called (malformed bodies, missing credentials or signatures): in `Stack` every admitted request reaches its service.
- Routers, configuration, logging, migrations and request ids.
