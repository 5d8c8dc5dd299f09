# Account creation to premium, verified

This project models, in Dafny 4.11, how an account of the Modularis services comes into being and
becomes premium, and proves what the services promise on the way:

- **The onboarding saga.** Command workers and recovery workers race on one row per idempotency key.
  A worker keeps the row in memory, calls identity and payment over RPC, and commits through updates
  that are fenced by the lock alone; a lease may end at any moment. No clock is assumed to be right.
- **Payments, the outbox and membership.** Guarded transitions of the payment document push their
  messages in the same update. Publishers claim messages with tokens and leases. The network may
  duplicate, delay, reorder and drop. Membership turns `payment.confirmed` into premium.
- **Saga and payments together.** One transition system holds all workers on all keys, all payment
  handlers, and every request and reply that was ever sent between them.
- **Webhook receipts and identities.** Registration with deduplication, the relay's
  PENDING/IN_FLIGHT/PUBLISHED claim, and idempotent creation and compensation of users.
- **Codecs and arithmetic.** The canonical JSON printer behind the request digests, the splitter of
  server-sent events, the signature header, and the 64-bit back-off delays.

## How the model is laid out

Code that changes tables and documents is a class whose methods do what the source does, statement
by statement, each proved against a function of the old state: `OnboardingRepository`,
`OnboardingService`, `MemoryRepository`, `Repository` (the document store), `PaymentService`,
`MembershipApplicationService`, `IdentityApplicationService`, `ReceiptStore`, `Relay`. Loops of the
source are loops here.

What happens when others run in between is a step relation: `SagaRun`, `PaymentRun`, `RelayRun`,
`IdentityService` and `Composition` each define a state, the steps, and `IsRun` for sequences of
states of any length with any number of workers, handlers, publishers and relays. The theorems are
about every state of every run. The classes are tied to the steps: an execution of
`ExecuteStateMachine` is a sequence of events of one session of `SagaRun`, with arbitrary statements
of others at every await, and whatever `PaymentService` does to its store is a run of `PaymentRun`.

A digest is modelled by what it was computed from, so equal digests mean equal payloads. Ids drawn at
random are new. A transaction, or an update of one document, takes effect as a whole or not at all.
Clock readings, replies, faults and the choices of the network are parameters of the steps.

Run `dafny verify dfyconfig.toml` to check everything.

## What the proofs brought to light

- COMPENSATED is never recorded. `markFailed` gives the lock back
  (onboarding-service/src/core/onboarding/onboarding.repository.ts:278-303), but the loop goes on to
  send the compensation and to record it (onboarding-service/src/core/onboarding/onboarding.service.ts:159-197),
  and the fenced update refuses (onboarding-service/src/core/onboarding/onboarding.repository.ts:364-371).
  The caller then gets that error instead of the stored problem. The service's README says that the
  compensation precedes the error response, and platform/docs/decisions/0001-onboarding-saga-owner.md
  lists COMPENSATED as a state; the code is what is modelled (`SagaTheorems.CompensationIsNeverRecorded`,
  and `SagaExample.CompensationGoesUnrecorded` for a run in which it happens).
- The event splitter is not independent of chunking for every stream: CR CR LF is normalized once or
  twice, depending on the cut. `SseTheorems.CuttingMattersExactlyForCrCrLf` gives the exact
  condition, `SseTheorems.AnEventMayDependOnTheCut` a stream in which an event appears or not.
- The time check of the signature is not exact at the ends of the range of durations: a timestamp at
  least 2^63 nanoseconds ahead always passes (`SignatureTheorems.BuiltHeadersAreAcceptedInTime`, and
  `SignatureTheorems.AFarFutureHeaderPasses` for one that does).
- `backoffDelay` wraps around to negative delays (`Retry.DelaysWrapAround`).
- With no processing attempts configured `retry` reports no error, and the simulated callback carries an
  empty reference and the zero time (`PaymentOutcomes.FinalResult`).
- `stableStringify` prints NaN and the infinities as null and -0 as 0, so it is injective only up to that
  (`CanonicalJson.StringifyIsCanonicalAndInjective`).
- The document store's claim loop takes the same message again and again when the claim ends at
  once, and the memory store's loop takes everything when the limit is zero; the claims of the
  service are of neither kind.
- Nothing in the identity service ever sets the premium flag that its compensation looks at. The
  model sets it from outside, so that the guard is not vacuous.
- The webhook handler deduplicates by the trimmed payment reference but forwards the reference as it
  came in (webhook-service/internal/core/webhook/handler.go:93-112).

## Model

| member | source | states |
|---|---|---|
| `SagaWorker.PermanentExactlyOn400And409` | onboarding-service/src/core/onboarding/onboarding.service.ts:321-343 | A failed payment call is permanent exactly when payment refused with status 400 or 409; a failure of the call itself never is |
| `SagaRepository.OnboardingRepository.TryAcquire` | onboarding-service/src/core/onboarding/onboarding.repository.ts:89-159 | Inserts the row if there is none, refuses another digest, yields to another's live lease, and else locks; nothing else changes |
| `SagaRepository.OnboardingRepository.ClaimRecoverable` | onboarding-service/src/core/onboarding/onboarding.repository.ts:176-219 | Locks min(limit, recoverable) different rows, the longest untouched first, skipping rows of open transactions, and leaves the others alone |
| `SagaRepository.OnboardingRepository.Transition` | onboarding-service/src/core/onboarding/onboarding.repository.ts:347-418 | Applies the change if and only if the row is locked by the worker; the other rows stay |
| `SagaRepository.OnboardingRepository.Release` | onboarding-service/src/core/onboarding/onboarding.repository.ts:329-345 | Unlocks the row if and only if the worker holds it |
| `SagaRepository.Interfere` | onboarding-service/src/core/onboarding/onboarding.repository.ts:89-418 | Whatever statements other workers run, a row that a worker holds afterwards is untouched |
| `OnboardingService.OnboardingService.ExecuteStateMachine` | onboarding-service/src/core/onboarding/onboarding.service.ts:114-221 | With others at work at every await, the loop ends within three turns and three RPCs in an answer; it is a sequence of session events, each of which is the reply to the request of its step or the row with the change of its stage, and every row it says it has saved was in the table after one of its statements |
| `OnboardingService.OnboardingService.HandlePaymentFailure` | onboarding-service/src/core/onboarding/onboarding.service.ts:321-343 | Adds one event to the turn: the row with this problem recorded, as retryable at the delayed time or as permanent with the compensation next, or the failure to record it |
| `OnboardingService.OnboardingService.WaitForSettledSaga` | onboarding-service/src/core/onboarding/onboarding.service.ts:345-382 | Answers what the first look at the row that settles the matter answers, or after the last look that the creation is in progress; each look found the row as some statement had left it, the last one as it is in the end |
| `OnboardingService.OnboardingService.Create` | onboarding-service/src/core/onboarding/onboarding.service.ts:68-112 | Refuses another digest, answers a session of its own on the acquired row whose saves were all in the table, or waits by looking at the row; the caller never keeps the lock |
| `OnboardingService.OnboardingService.RecoverPendingSagas` | onboarding-service/src/core/onboarding/onboarding.service.ts:393-467 | Unless a recovery is under way, locks min(limit, recoverable) sagas and drives each to an answer by a session of its own, and holds no lock at the end |
| `SagaRun.StepKeepsInv` | onboarding-service/src/core/onboarding/onboarding.service.ts:68-412 | Every claim, reply, save, release and poll of every worker keeps the invariant of the key, with arbitrary clock readings |
| `SagaTheorems.LockHolderHasTheRow` | onboarding-service/src/core/onboarding/onboarding.repository.ts:347-418 | In every reachable state whoever holds the lock has exactly the row in memory, and only one worker holds it |
| `SagaTheorems.PayloadsAreWrittenOnce` | onboarding-service/src/core/onboarding/onboarding.repository.ts:221-276 | User payload, payment payload and response are written at most once; COMPLETED is absorbing and carries the response composed of them |
| `SagaTheorems.SuccessesAgree` | onboarding-service/src/core/onboarding/onboarding.service.ts:68-112 | All successes for a key agree on user, payment, correlation id and key, come from one digest, and at most one of them is no replay |
| `SagaTheorems.OtherDigestsNeverSucceed` | onboarding-service/src/core/onboarding/onboarding.repository.ts:131-143 | A request with a digest other than the row's never succeeds, at any time of the run |
| `SagaTheorems.PermanentFailureIsFinal` | onboarding-service/src/core/onboarding/onboarding.service.ts:620-630 | After a permanent failure the error and the payloads never change, nobody succeeds, and every later claim and poll with the digest answers the stored problem |
| `SagaTheorems.PermanentFailuresWereRefused` | onboarding-service/src/core/onboarding/onboarding.service.ts:505-565 | A stored permanent failure stems from a payment refusal with status 400 or 409 |
| `SagaTheorems.TheLoopTerminates` | onboarding-service/src/core/onboarding/onboarding.service.ts:130-220 | From every reachable row the loop turns at most three times with at most three RPCs, and every event leaves a session fewer to come |
| `SagaTheorems.DefensiveBranchesAreDead` | onboarding-service/src/core/onboarding/onboarding.service.ts:585-605 | The branches for an incomplete snapshot, a missing user and an unexpected state are unreachable |
| `SagaTheorems.CompensationIsNeverRecorded` | onboarding-service/src/core/onboarding/onboarding.repository.ts:305-327 | No row is ever COMPENSATED; recording a compensation is always refused for want of the lock |
| `SagaExample.CompensationGoesUnrecorded` | onboarding-service/src/core/onboarding/onboarding.service.ts:159-197 | A run from the first command to a compensation that is sent and answered while the row goes on saying FAILED and the caller is told another error |
| `PaymentStore.StaleTokensChangeNothing` | payment-service/internal/testsupport/memory_repository.go:181-217 | Acknowledging or retrying with a token that the message does not carry leaves the outbox as it is |
| `PaymentStore.StatusMessageIdsAreInjective` | payment-service/internal/core/payment/service.go:591-623 | Whatever the characters of payment ids, a `psu:` id determines the payment and both states |
| `PaymentStore.MessageIdsAreInjective` | payment-service/internal/core/payment/service.go:587-593 | Messages of different payments or different kinds have different logical ids |
| `PaymentLedger.StepKeepsInv` | payment-service/internal/core/payment/service.go:46-349 | Every step of every handler, publisher and consumer, interleaved at every call of the store, keeps the ledger |
| `PaymentTheorems.EveryMessageIsEnqueuedOnce` | payment-service/internal/core/payment/service.go:147-349 | process.requested once, delivery.requested once iff COMPLETED, payment.confirmed once iff DELIVERED, no status pair twice |
| `PaymentTheorems.LogicalIdsAreDistinct` | payment-service/internal/infrastructure/mongo/repository.go:111-188 | All logical message ids ever enqueued are pairwise distinct |
| `PaymentTheorems.CompletedPaymentsAreJustified` | payment-service/internal/core/payment/service.go:247-313 | A completed payment was confirmed no later than it expires, by a delivered callback with its reference, amount and currency, whose event id, if it has one, is the only one stored; it was processed at most once |
| `PaymentTheorems.NamedEventsAreStored` | payment-service/internal/testsupport/memory_repository.go:106-137 | As long as all callbacks name their events, every completed payment stores exactly one event id, which is not empty |
| `PaymentTheorems.SimulatedCallbacksNameTheirEvents` | payment-service/internal/core/payment/service.go:223-244 | The callbacks that the service sends itself name their events |
| `PaymentTheorems.CompletedAndExpiredExclude` | payment-service/internal/testsupport/memory_repository.go:106-137 | COMPLETED and EXPIRED are final and exclude each other at all times |
| `OutboxTheorems.NothingEnqueuedIsLost` | payment-service/internal/core/payment/service.go:351-374 | Exactly the messages ever enqueued are pending or published, whatever publishers do and wherever they stop |
| `OutboxTheorems.StaleHoldersChangeNothing` | payment-service/internal/infrastructure/mongo/repository.go:243-269 | Once the outbox has no message with its token, a publisher neither removes nor postpones anything, at any later time of the run |
| `OutboxTheorems.TakenOverHoldersAreStale` | payment-service/internal/infrastructure/mongo/repository.go:190-241 | In every reachable state a claim of a message leaves every earlier holder of it without one that carries its token |
| `PublishOnce.TimelyHoldersPublishOnce` | payment-service/internal/core/payment/service.go:351-374 | If every holder publishes and acknowledges strictly before its claim ends, no message is published twice |
| `MemoryRepository.MemoryRepository.ReserveForProcessing` | payment-service/internal/testsupport/memory_repository.go:73-86 | Reserves a pending, unexpired payment and counts the attempt, or changes nothing |
| `MemoryRepository.MemoryRepository.Transition` | payment-service/internal/testsupport/memory_repository.go:219-238 | Stores the update together with the messages if and only if the document is there and allows it |
| `MemoryRepository.MemoryRepository.ClaimPendingPublishes` | payment-service/internal/testsupport/memory_repository.go:155-179 | The nested scan claims min(limit, eligible) distinct eligible messages, each with a new token of its own, and all of them if the limit is zero |
| `MemoryRepository.Filtered` | payment-service/internal/testsupport/memory_repository.go:181-194 | The loop drops exactly the messages with the id and the token, keeping the order |
| `MemoryRepository.Rescheduled` | payment-service/internal/testsupport/memory_repository.go:196-217 | The loop postpones the first message with the id and the token, and reports whether there is one |
| `MongoRepository.Repository.Create` | payment-service/internal/infrastructure/mongo/repository.go:46-64 | Stores a document unless its id, key or reference is taken |
| `MongoRepository.Repository.ClaimPendingPublishes` | payment-service/internal/infrastructure/mongo/repository.go:190-241 | The one-at-a-time loop claims min(limit, eligible) distinct messages if claims last, and exactly limit claims, repeated if need be, if they end at once |
| `ClaimAgreement.ClaimLoopsAgree` | payment-service/internal/infrastructure/mongo/repository.go:190-241 | The two loops claim equally many messages and leave equally many, and the same ones if the limit does not cut them short |
| `ClaimAgreement.FiltersAgreeInEveryRun` | payment-service/internal/infrastructure/mongo/repository.go:200-213 | In every reachable store the filter of the document store picks exactly the messages the memory store calls eligible |
| `ClaimAgreement.ClaimInARun` | payment-service/internal/infrastructure/mongo/repository.go:190-241 | A whole call of the loop on the store that ends a run is a sequence of claim steps of the run, one for each message |
| `PaymentHistory.ClaimsAreARun` | payment-service/internal/testsupport/memory_repository.go:155-179 | Whatever either loop has claimed for a time to come, some run reaches it by claims alone, with every message in the hands of a holder of its own |
| `ClaimLoops.WhatIsLeft` | payment-service/internal/testsupport/memory_repository.go:283-288 | After a lasting claim exactly the messages not taken are still eligible |
| `PaymentService.PaymentService.CreatePayment` | payment-service/internal/core/payment/service.go:46-145 | Replays the stored payment without its QR code, refuses another digest, a currency or a failing gateway, and else stores exactly one new payment with its processing requested; all of it is a run of the model |
| `PaymentService.PaymentService.HandleProcessRequested` | payment-service/internal/core/payment/service.go:147-245 | A reserved payment announces PROCESSING and then FAILED or the simulated callback, as the retried gateway decides; a late one expires; nothing else changes; all of it is a run of the model |
| `PaymentService.PaymentService.HandleCallbackConfirmed` | payment-service/internal/core/payment/service.go:247-313 | A recent callback that agrees with an unsettled payment completes it at the callback's time, with its status and delivery messages, or expires it if that is too late; any other callback changes nothing |
| `PaymentService.PaymentService.HandleDeliveryRequested` | payment-service/internal/core/payment/service.go:315-349 | A completed, undelivered payment is delivered and confirmed in one update; otherwise nothing changes |
| `PaymentService.PaymentService.PublishPending` | payment-service/internal/core/payment/service.go:351-374 | Claims min(100, eligible) messages, publishes each of them once, in order, then acknowledges it or puts it off; what was taken by the broker is gone, the rest waits; all of it is a run of the model |
| `PublishBatch.WhatPublishingLeaves` | payment-service/internal/core/payment/service.go:351-374 | After a call of PublishPending no message that the broker took is left, each that it did not take waits unclaimed for its delayed next attempt, and what was not claimed is as it was |
| `PublishBatch.WhatARunPublishes` | payment-service/internal/core/payment/service.go:351-374 | The same for every store that a run reaches and every claim with new tokens |
| `MembershipService.MembershipApplicationService.HandlePaymentConfirmed` | membership-service/src/main/java/com/modularis/membership/core/membership/application/MembershipApplicationService.java:55-98 | Records the receipt and, for a user who is not premium yet, the flag and two outbox rows, whether or not the inbox notices duplicates |
| `MembershipService.EveryPremiumUserHasPaid` | membership-service/src/main/java/com/modularis/membership/core/membership/application/MembershipApplicationService.java:55-98 | Every premium user has a payment of theirs that is COMPLETED and DELIVERED with a confirmation time, and exactly one outbox row per premium routing key; everybody else has none |
| `PaymentExample.UserBecomesPremium` | membership-service/src/main/java/com/modularis/membership/core/membership/application/MembershipApplicationService.java:55-98 | A run from the request over callback, delivery and publication to a premium user, whose confirmation comes in twice and is announced once |
| `MembershipService.ConsumedConfirmationsMakePremium` | membership-service/src/main/java/com/modularis/membership/core/membership/application/MembershipApplicationService.java:55-98 | A confirmation taken from the bus, for the first time or again, leaves its user premium |
| `PaymentOrigins.StepKeepsOrigins` | payment-service/internal/core/payment/service.go:46-145 | Every stored payment was made by a request with its key, digest and user in a supported currency; a 400 was given for the currency, a 409 beside a payment with the key and another digest |
| `Composition.NoPaymentBesideACompensation` | onboarding-service/src/core/onboarding/onboarding.service.ts:159-197 | If a compensation is ever sent for a key, no payment under the key of its payment step exists before, then or later, in any run of all workers, handlers and network faults |
| `Composition.CompletedOnboardingsHaveTheirPayment` | onboarding-service/src/core/onboarding/onboarding.service.ts:251-288 | The payment a completed saga answers with is stored under its step's key, with its reference, for its user |
| `ReceiptStore.ReceiptStore.Register` | webhook-service/internal/infrastructure/postgres/receipt_store.go:61-128 | Accepts a new key, counts a repeated one, and fails on another row with the reference and status or the provider's event id |
| `ReceiptStore.ReceiptStore.ClaimPending` | webhook-service/internal/infrastructure/postgres/receipt_store.go:130-184 | Puts min(limit, claimable) receipts in flight for the owner, the oldest first, and changes no other |
| `ReceiptStore.ReceiptStore.MarkPublished` | webhook-service/internal/infrastructure/postgres/receipt_store.go:186-210 | Publishes the row if and only if it is in flight for the owner |
| `ReceiptStore.ReceiptStore.RetryPending` | webhook-service/internal/infrastructure/postgres/receipt_store.go:212-241 | Puts the row back if and only if it is in flight for the owner |
| `WebhookHandler.RecordedKeys` | webhook-service/internal/core/webhook/handler.go:77-119 | What a valid confirmed webhook registers: keys made of the trimmed reference, none of them empty |
| `WebhookHandler.KeysNameTrimmedReferences` | webhook-service/internal/core/webhook/handler.go:218-224 | Dedupe keys and message ids agree exactly when the references do but for the space around them |
| `Relay.HandleWebhook` | webhook-service/internal/core/webhook/handler.go:109-172 | Accepted exactly for a new key that clashes with no row, replayed exactly for a published one; a failure stores nothing |
| `Relay.Relay.Tick` | webhook-service/internal/core/webhook/relay.go:48-92 | Claims the oldest claimable receipts, publishes each once, and leaves each published or waiting for its delayed next attempt |
| `RelayRun.OneAcceptancePerReference` | webhook-service/internal/infrastructure/postgres/receipt_store.go:61-128 | At most one registration is ever accepted per trimmed payment reference |
| `RelayRun.PublishedIsFinal` | webhook-service/internal/infrastructure/postgres/receipt_store.go:186-241 | PUBLISHED is absorbing, and a row is in flight exactly when it has an owner |
| `RelayRun.PublishedOnce` | webhook-service/internal/core/webhook/relay.go:52-91 | With any number of relays a receipt is sent at most once, and exactly once if it says PUBLISHED |
| `RelayRun.StrandedReceiptsAreNotClaimed` | webhook-service/internal/infrastructure/postgres/receipt_store.go:139-148 | A receipt that its relay has not settled is never claimable again |
| `IdentityService.IdentityApplicationService.CreateUser` | identity-service/src/main/java/com/modularis/identity/core/identity/application/IdentityApplicationService.java:37-85 | Replays the user of a known key and digest, refuses another digest, a taken email or tax id, and else creates a user with a new id and its request |
| `IdentityService.IdentityApplicationService.CompensateUser` | identity-service/src/main/java/com/modularis/identity/core/identity/application/IdentityApplicationService.java:87-128 | Repeats a receipt for the same user, refuses another target and premium users, and else removes the user with its requests |
| `IdentityService.UsersAndRequestsAreInBijection` | identity-service/src/main/java/com/modularis/identity/core/identity/application/IdentityApplicationService.java:37-128 | Each user is named by exactly one request and each request names a user; emails and tax ids are distinct |
| `IdentityService.RepeatedCreatesNameTheSameUser` | identity-service/src/main/java/com/modularis/identity/core/identity/application/IdentityApplicationService.java:40-53 | Repeated creates answer the same user for as long as it is not compensated, and it is gone exactly when it is |
| `IdentityService.CompensationRemovesOneUser` | identity-service/src/main/java/com/modularis/identity/core/identity/application/IdentityApplicationService.java:115-127 | A compensation removes exactly the user and its one request |
| `IdentityService.CompensationUndoesCreation` | identity-service/src/main/java/com/modularis/identity/core/identity/application/IdentityApplicationService.java:63-127 | Compensating a user just created restores the tables, but for the receipt |
| `IdentityService.CompensatedUsersNeverReturn` | identity-service/src/main/java/com/modularis/identity/core/identity/application/IdentityApplicationService.java:63-127 | A user id that is gone never returns |
| `IdentityService.PremiumUsersStay` | identity-service/src/main/java/com/modularis/identity/core/identity/application/IdentityApplicationService.java:104-113 | A compensation of a premium user changes nothing and is never reported as done |
| `Retry.BackoffDelay` | payment-service/internal/core/payment/service.go:520-529 | The loop computes base times backoff to the (attempt - 1), wrapped to 64 bits |
| `Retry.DelayIsExactWhileItFits` | payment-service/internal/core/payment/service.go:520-529 | The delay is the exact product if and only if the product is below 2^63 |
| `Retry.DelaysGrow` | webhook-service/internal/core/webhook/relay.go:96-105 | Delays never shrink from one attempt to a later one that fits |
| `Retry.DelaysWrapAround` | payment-service/internal/core/payment/service.go:520-529 | A concrete delay beyond the range is negative |
| `Retry.Run` | payment-service/internal/core/payment/service.go:505-518 | The loop makes the attempts 1, 2, … in order, sleeps the delays between them, and ends with the outcome of the last; without attempts it reports no error |
| `Retry.RetryAtTheGateway` | payment-service/internal/infrastructure/gateway/mock_gateway.go:29-53 | With N attempts and F failures the gateway is called min(F + 1, N) times, and succeeds iff F < N and the score does not exceed the rate |
| `Retry.SleepsAddUp` | payment-service/internal/core/payment/service.go:505-529 | The sleeps of k calls add up to the geometric sum for a backoff of at least two |
| `Retry.FlatSleepsAddUp` | payment-service/internal/core/payment/service.go:505-529 | For a smaller backoff they add up to k - 1 times the delay |
| `JsonText.StringIsUndone` | onboarding-service/src/shared/utils/stable-hash.ts:17-30 | A printed string is read back as it was, escapes and lone surrogates included (RFC 8259 section 7) |
| `JsonParser.ParserUndoesStringify` | onboarding-service/src/shared/utils/stable-hash.ts:17-30 | Parsing the printed value gives the value with its keys in order and nothing is left |
| `CanonicalJson.StringifyIsCanonicalAndInjective` | onboarding-service/src/shared/utils/stable-hash.ts:17-30 | Two values are printed alike if and only if they are equal up to key order, non-finite numbers counting as null |
| `CanonicalJson.KeysArePrintedInOrder` | onboarding-service/src/shared/utils/stable-hash.ts:26-29 | The keys of an object come in ascending order of UTF-16 code units, each once (RFC 8785 section 3.2.3) |
| `SseSplitter.ConsumeSseBuffer` | platform/scripts/demo/manual-api-console.runtime.js:1482-1521 | The loop emits the events of the blocks before each boundary and returns the rest |
| `SseSplitter.ReadLoop` | platform/scripts/demo/manual-api-console.runtime.js:1040-1068 | The loop over the chunks emits and leaves what repeated calls do |
| `SseSplitter.BuildEvent` | platform/scripts/demo/manual-api-console.runtime.js:1492-1508 | The loop over the lines keeps the last id and event and joins the data |
| `SseTheorems.ChunksAreAsTheWhole` | platform/scripts/demo/manual-api-console.runtime.js:1053-1068 | Without CR CR LF the loop emits and leaves what one call on the whole normalized text does |
| `SseTheorems.WellFormedStreamsAreSplitAlike` | platform/scripts/demo/manual-api-console.runtime.js:1053-1068 | If each CR is followed by LF, any two cuts of the stream give the same events and the same remainder |
| `SseTheorems.CuttingMattersExactlyForCrCrLf` | platform/scripts/demo/manual-api-console.runtime.js:1053-1068 | Cutting never matters, for the stream and its beginnings, if and only if there is no CR CR LF |
| `SseTheorems.AnEventMayDependOnTheCut` | platform/scripts/demo/manual-api-console.runtime.js:1053-1068 | A stream with CR CR LF in which one cut shows an event that the whole does not |
| `Signature.ParseHeader` | webhook-service/internal/core/webhook/signature.go:49-77 | The loop over the parts reads what the fold over them says, and refuses at the first part without `=` |
| `Signature.ParseUndoesFormat` | webhook-service/internal/core/webhook/signature.go:37-47 | Every 64-bit number is read back from its decimal form |
| `SignatureTheorems.ParsingUndoesBuilding` | webhook-service/internal/core/webhook/signature.go:37-77 | A built header gives back the time in whole seconds and the signature |
| `SignatureTheorems.HeaderOfParts` | webhook-service/internal/core/webhook/signature.go:54-70 | A header of pairs is what its last `t` and its last `v1` say |
| `SignatureTheorems.OnlyTheLastOfEachCounts` | webhook-service/internal/core/webhook/signature.go:54-70 | Order, unknown parts and earlier duplicates do not matter |
| `SignatureTheorems.EveryPartMustBeAPair` | webhook-service/internal/core/webhook/signature.go:56-60 | A part without `=` spoils the header wherever it stands |
| `SignatureTheorems.BuiltHeadersAreAcceptedInTime` | webhook-service/internal/core/webhook/signature.go:21-35 | A built header is accepted if and only if the exact distance is within tolerance or does not fit a duration in the ways stated, and is else expired |
| `SignatureTheorems.AFarFutureHeaderPasses` | webhook-service/internal/core/webhook/signature.go:79-84 | A header 292 years ahead is accepted with a tolerance of five minutes |
| `SignatureTheorems.TheCheckIsExactWhenItFits` | webhook-service/internal/core/webhook/signature.go:79-84 | Within the range of durations, accepted if and only if the exact distance is within tolerance |
| `Text.SplitUndoesJoin` | webhook-service/internal/core/webhook/signature.go:56 | Splitting at a character undoes joining parts that do not contain it |

## Left out

- Lost acknowledgements of commits: a statement that reports an error is taken to have changed nothing.
- Races below serializable isolation: each transaction of the SQL and JPA services is one step, so the DataIntegrityViolationException of `createUser` and the insert race of `tryAcquire` do not occur.
- The text of the SQL statements that `transition` assembles, and the audit table it writes beside the row.
- Commands and events that cannot be decoded, UUIDs that cannot be parsed or are not in canonical form, and columns that are too short.
- Customer fields, bookkeeping timestamps, log lines, and the exact texts of problems, which are named instead.
- Amounts are compared for equality only; the score and the rate of the mock gateway are real numbers.
- Liveness beyond the termination of loops: receipts stranded in flight and failed sagas that nobody recovers make it false.
- `Composition.NoPaymentBesideACompensation`: only the onboarding service sends payment requests in this model, and replies of the identity service are arbitrary.
- `PublishOnce.TimelyHoldersPublishOnce`: one clock is read by all publishers, which is what the claim's end is compared with.
- `OnboardingService.OnboardingService.WaitForSettledSaga`: the deadline is a number of looks.
- `OnboardingService.OnboardingService.Create`: the final release succeeds; releases that fail are steps of `SagaRun`.
- `PaymentService.PaymentService.PublishPending`: the lease is positive, as configured in the source.
- `MongoRepository.Repository.Create`: of the document store only the unique indexes and the claim loop have methods of their own; its other updates differ from the memory store's in fields that no decision reads, and in adding an empty event id.
- `SignatureTheorems.BuiltHeadersAreAcceptedInTime`: subtraction of times is taken as the Go documentation describes it, saturating; HMAC is any function that gives 32 bytes.
- `SseSplitter.ReadLoop`: decoding bytes, parsing the data as JSON for display, and the page itself are not part of this model.
- `WebhookHandler.KeysNameTrimmedReferences`: upper-casing maps ASCII letters and the two letters outside ASCII whose upper case is in ASCII; other letters are left as they are.
- `CanonicalJson.StringifyIsCanonicalAndInjective`: a finite number is its text under Number::toString, which determines it but for -0, which counts as 0.
- The gateways, controllers, guards, brokers, topology, health probes, outbox publishers of the Spring services, pending RPC calls, and the rest of the demo console: wiring around what is modelled.
