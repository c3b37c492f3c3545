# Verification of the commerce backend's stateful core

The backend sells dropshipped products for many tenants. Its hard parts are few: jobs that a
queue delivers at least once, prices that several code paths must agree on, a cache inside a long
import, an event id that must survive reordered JSON, refresh tokens, nested collections. This
project models those parts in Dafny and proves what they promise. Check it with
`dafny verify dfyconfig.toml`.

Each source file has its module. Where the source changes rows or objects, the module has a class
or methods doing the same steps, proved against a function on table values; the properties are
lemmas about that function, over every input or every run.

- `SupplierRefund`, `RefundDeliveries`: the refund job and its NONE / IN_PROGRESS / DONE marker, as a
  system of interleaved deliveries that may stop between any two awaits, and as the handler itself;
  then that system joined to the queue whose handlers make the deliveries.
- `SqsConsumer`, `Lease`, `OneWorker`, `FinalAttempt`: one queue with any number of consumer
  processes and the loop that works on it; how long a message stays hidden while its handler runs;
  both together, over time; what `isFinalAttempt` is worth to a handler.
- `ProductSync`, `Resync`: the resync job's status and counters, and the queueing of such jobs.
- `JobStatus`, `JobDeliveries`: the guarded status write, read and write apart, with several writers
  at once; the same joined to the queue and its timing.
- `Json`, `WebhookIdentity`: the canonical printer, a reader for its output, the event id.
- `Pricing`, `Catalog`, `PricingRules`, `ProductImport`, `ImportPrices`, `CatalogRuns`: cent
  arithmetic, recalculation, the pricing rules' operations, import, when the last two agree, and
  histories of all of them.
- `VariantAttributes`, `VariantKey`: attribute upserts with and without the shared cache; splitting
  a supplier's variant key.
- `AuthSessions`, `Collections`: refresh-token families; the collections' parent links.

## Findings

Where the code and its comments disagree the model follows the code.

- The refund marker lives in one JSON document per supplier order, read and written back whole. At
  most one request per refund is accepted exactly when deliveries never overlap per supplier
  *order* and a call that throws has filed nothing (`AtMostOnceIff`). Keeping deliveries of one
  *refund* apart is not enough: two refunds of one order overwrite each other's marker
  (`LostMarkerFilesTwice`), even after an acknowledgement (`LostAck`). In terms of the deployment: one
  process that takes one message at a time, whatever the leases do; a second process or a higher
  SUPPLIER_REFUND_CONCURRENCY can file a refund twice (`RefundDeliveries.AtMostOnceIff`).
- The heartbeat keeps a message hidden while its handler runs, and keeps every other process from
  starting on it, exactly when `(losses + 1) * max(1, V / 3) + latency < V`. It stops when the handler
  ends, and a malformed message or a batch handed back never has one. So a job's last call, the
  delete, the retry or the hand-back, is made while no other process has the message exactly when that
  call's time limit fits on top, `(losses + 1) * max(1, V / 3) + latency + closing < V`; without a
  time limit on it never (`ExclusiveIff`, `NeverTwoIff`). Two renewals lost in a row are too many at
  any timeout (`PromptRenewals`).
- A status write tests the status it has read and then writes by id alone. A job's terminal status is
  for good over every interleaving exactly when its deliveries do not overlap and no other status write
  overlaps them (`JobStatus.StaysSettledIff`): a delivery that has read an open job can put a completed
  one back to PROCESSING. On a queue that allows two receives this comes down to the same bound on the
  heartbeat (`JobDeliveries.StaysSettledIff`). The other writer is `publishProductSyncJob`, which marks
  a job FAILED when queueing it throws, also if its message got through.
- While no lease runs out under a running job, `isFinalAttempt` tells whether a failure will be
  retried exactly when the consumer's limit equals the queue's (`FinalAttemptIff`). A lease that does
  run out can hand the last receive to another worker, and a handler told "not final" is then never
  retried (`LapsedLease`); the flag is exact for every handler of every run only on a queue that
  allows a single receive (`FlagIsExactIff`).
- A resync job whose COMPLETED write is lost is acknowledged and stays PROCESSING for good
  (`LostCompletion`); one whose write committed without a reply is settled (`AckSettlesIff`). A not-found item whose note throws is counted twice (`CountedTwice`).
- After an import, recalculation can still change the product: the import's lowest price counts
  variants that were soft-deleted in the catalog (`DeletedVariantDisagrees`) and payload variants
  that a later one with the same id overwrites (`DuplicateIdsDisagree`). The exact condition, on the
  tables and the payload before the import, is in `RecalculationAgreesIff`. An import without
  variants sets the price to 10.00 (`EmptyImportAgreesIff`).
- An admin's variant edit writes the price as given, also where a rule sets it (`HandSetPrice`). All
  along a history every costed live variant has its rule's price exactly when no accepted edit gives
  such a variant another one (`AlwaysPricedIff`); its next import or recalculation takes the edit back
  (`ReachedIsInLine`).
- A sale can raise a price that is not in whole cents, or negative (`SaleNeverRaisesIff`). Rules as
  the controller accepts them, without negative amounts, never make a costlier variant cheaper
  (`AcceptedRulesKeepOrder`); `MonotoneIff` says which others do. A rule's sale applies even while
  the rule is inactive (`InactiveRuleSells`).
- The attribute cache is sound exactly when no two labels of a run share a `code::value` key; codes
  with a colon can (`CacheRefinesIff`, `ColonCodesCollide`).
- A webhook's own event id is taken as it is, so one that spells out `sha256:` and another payload's
  hash shares that payload's id (`SharedEventIdIff`, `HashCanBeSpelt`).
- A replaced refresh token that has itself run out is refused without ending its session
  (`ReuseEndsSessionIff`, `LateReuseGoesUnnoticed`).
- Creating a collection does not check that its parent is top-level, so three levels can arise
  (`ThreeLevels`); depth stays at two exactly when every create names a top-level parent.

## Model

| member | source | states |
|---|---|---|
| SupplierRefund.AtMostOnceIff | src/consumers/supplier-refund.consumer.ts:50-118 | over every run of deliveries, crashes between awaits, lost or ambiguous writes and redeliveries, the supplier accepts each refund at most once exactly when deliveries do not overlap per supplier order and a thrown call filed nothing |
| SupplierRefund.AcksStayDoneIff | src/consumers/supplier-refund.consumer.ts:50-118 | an acknowledged refund has a DONE marker and keeps it, in every run, exactly under the same separation of deliveries |
| SupplierRefund.RunKeepsInv | src/consumers/supplier-refund.consumer.ts:20-43 | the inductive invariant: what each marker says about requests accepted, under way or orphaned, kept by every legal run |
| SupplierRefund.ThrownCallFilesTwice | src/consumers/supplier-refund.consumer.ts:99-116 | a run in which a call files the refund and then throws, and the retry files it again |
| SupplierRefund.LostMarkerFilesTwice | src/modules/commerce/order.repository.ts:279-301 | a run with two refunds of one order in which a marker is overwritten and that refund is filed twice |
| SupplierRefund.LostAck | src/modules/commerce/order.repository.ts:229-257 | a run in which an acknowledged refund loses its DONE marker to another refund's write |
| RefundDeliveries.AtMostOnceIff | src/consumers/supplier-refund.consumer.ts:128-131 | over every run of the queue, its processes and their deliveries, lapsed leases included, the supplier accepts each refund at most once exactly when there is one process, it takes one message at a time, and a thrown call filed nothing |
| RefundDeliveries.RunKeepsInv | src/infrastructure/sqs/consumer.ts:90-132 | over every such run each delivery belongs to a handler running for its refund, no two to the same, and processes and batches keep to their limits |
| RefundDeliveries.CallsApart | src/infrastructure/sqs/consumer.ts:90-132 | with one process and one message at a time the deliveries of a run are a run of the refund system in which no two overlap |
| RefundDeliveries.TwoHandlersFileTwice | src/modules/commerce/order.repository.ts:279-301 | wherever two refunds of one order have handlers at once, in one process or two, a run that files one of them twice |
| SupplierRefund.AttemptIsRun | src/consumers/supplier-refund.consumer.ts:50-118 | one attempt of the handler, however it is cut short, is a legal run of the step system with the same outcome |
| SupplierRefund.AttemptMeaning | src/consumers/supplier-refund.consumer.ts:44-126 | when an attempt calls the supplier, and what marker an acknowledged, failed or interrupted one leaves |
| SupplierRefund.AttemptAnswers | src/consumers/supplier-refund.consumer.ts:44-126 | for every marker, registry and way the calls can go: whether the supplier is called, how the attempt ends, and the marker it leaves. DONE is acknowledged untouched; IN_PROGRESS, or a supplier without refunds, is acknowledged exactly when "not requested" was recorded; an answer exactly when that answer was; a missing supplier fails; and what the supplier has accepted |
| SupplierRefund.AttemptLeavesOthers | src/modules/commerce/order.repository.ts:229-301 | an attempt at one refund leaves every other refund's marker as it was |
| SupplierRefund.HandleSupplierRefund | src/consumers/supplier-refund.consumer.ts:44-126 | the handler step by step, with those answers, markers and supplier calls told from the payload, the registry and its calls; an invalid payload changes nothing, and no other refund's marker changes |
| SupplierRefund.OrderRepository.SetSupplierRefundRequestInProgress | src/modules/commerce/order.repository.ts:279-301 | sets or clears one refund's marker by rewriting the order's document |
| SupplierRefund.OrderRepository.RecordSupplierRefundResult | src/modules/commerce/order.repository.ts:229-257 | makes one refund's marker DONE with the supplier's answer |
| SupplierRefund.EditedMarker | src/modules/commerce/order.repository.ts:229-301 | reading a marker after marking, clearing or recording gives IN_PROGRESS, nothing, or DONE with the answer if that write was committed; every other refund reads as before |
| Lease.ExclusiveIff | src/infrastructure/sqs/consumer.ts:210-225 | whatever beats are lost or late within the network's bounds, the message stays hidden for the whole handler run exactly when the longest gap between renewals is shorter than the timeout |
| Lease.PromptRenewals | src/infrastructure/sqs/consumer.ts:210-225 | with prompt renewals: none may be lost above 1 s, one in a row above 2 s, two never |
| Lease.HiddenThroughout | src/infrastructure/sqs/consumer.ts:210-225 | the sufficient half, for each beat pattern and instant |
| Lease.WorstLapses | src/infrastructure/sqs/consumer.ts:210-225 | the necessary half: a possible pattern of lost and late beats under which the lease runs out |
| Lease.HiddenWhileClosing | src/infrastructure/sqs/consumer.ts:236-249 | the beats sent before the handler ended still cover the last call, if its time limit fits on top of the longest gap |
| SqsConsumer.RunKeepsInv | src/infrastructure/sqs/consumer.ts:95-132 | the inductive invariant of queue, leases, jobs and starts, over every run |
| SqsConsumer.StartsBounded | src/infrastructure/sqs/consumer.ts:62-73 | a message's handler starts at most as often as the queue's redrive policy lets it be received, whatever the consumer's own limit is |
| SqsConsumer.Conservation | src/infrastructure/sqs/consumer.ts:62-73 | every message ever sent is still in the queue, or left it handled with success, malformed, or after all its receives |
| SqsConsumer.LeftForGood | src/infrastructure/sqs/consumer.ts:239-239 | a message that left the queue never comes back |
| SqsConsumer.StoppingStartsNothing | src/infrastructure/sqs/consumer.ts:117-120 | what is received while stopping is never run, whatever happens after |
| SqsConsumer.StoppedForGood | src/infrastructure/sqs/consumer.ts:140-144 | once stop() has resolved the process runs no handler, and never again |
| SqsConsumer.NoReceiveAfterFinal | src/infrastructure/sqs/consumer.ts:254-255 | after its last receive a message is never received again |
| OneWorker.NoSecondWorker | src/infrastructure/sqs/consumer.ts:90-93 | over every run in which no lease runs out before or under a handler, at most one process is before or in its handler for a message, from its latest receive, and it stays hidden meanwhile; the same for all jobs up to their last call when no lease runs out under those |
| OneWorker.NeverTwoIff | src/infrastructure/sqs/consumer.ts:210-249 | two claims over every timed run, with beats only while a handler runs: never two processes before or in a handler for one message exactly when the lease outlasts the longest gap between renewals; never two with the message in hand up to their last call exactly when it outlasts that gap and the last call's time limit together, and never without such a limit |
| OneWorker.RunningLapses | src/infrastructure/sqs/consumer.ts:210-225 | otherwise, a timed run in which a second process receives a message under a running handler |
| OneWorker.ClosingLapses | src/infrastructure/sqs/consumer.ts:236-239 | a timed run in which a second process receives a message while its handled message's delete is under way |
| OneWorker.SecondBegins | src/infrastructure/sqs/consumer.ts:210-235 | and one in which the second handler runs beside the first |
| FinalAttempt.FinalAttemptIff | src/infrastructure/sqs/consumer.ts:227-232 | over every run in which no lease runs out before or under a handler, isFinalAttempt tells each running handler whether its message will ever be received again exactly when the two limits are equal |
| FinalAttempt.FinalIsFinalIff | src/infrastructure/sqs/consumer.ts:230-230 | over every run at all, a handler told "final" has a message that never comes back exactly when the consumer's limit is not below the queue's |
| FinalAttempt.NotFinalIsRetriedIff | src/infrastructure/sqs/consumer.ts:230-230 | over every run, the handler of a message's latest receive told "not final" has a message that can come back exactly when the limit is not above the queue's |
| FinalAttempt.LapsedLease | src/infrastructure/sqs/consumer.ts:254-261 | for every queue with two receives or more, a run in which a running handler, told "not final" under equal limits, is never retried |
| FinalAttempt.FlagIsExactIff | src/infrastructure/sqs/consumer.ts:230-230 | the flag is exact for every running handler in every run exactly when both limits are one |
| SqsConsumer.SqsClient.Do | src/infrastructure/sqs/consumer.ts:95-132 | one step of the service, as the system's step function has it |
| SqsConsumer.SqsClient.RunOne | src/infrastructure/sqs/consumer.ts:179-272 | one message, from parsing to delete or retry, leaves exactly what the composed steps leave |
| SqsConsumer.SqsClient.Handle | src/infrastructure/sqs/consumer.ts:235-270 | handler, delete and the catch path; a delete that fails after success goes to retry |
| SqsConsumer.SqsClient.TakeBatch | src/infrastructure/sqs/consumer.ts:97-120 | receives a batch and dispatches it, to be run or to be handed back if stop() came meanwhile |
| SqsConsumer.SqsClient.Deliverable | src/infrastructure/sqs/consumer.ts:90-93 | a receive hands out only receivable messages, at most the batch size, and all of them when fewer |
| SqsConsumer.SqsClient.FinishBatch | src/infrastructure/sqs/consumer.ts:117-130 | every job of a batch is finished, in any order: where each message ends, which handlers started, which succeeded; released ones start nothing |
| SqsConsumer.SqsClient.PollOnce | src/infrastructure/sqs/consumer.ts:96-131 | one turn of the loop: the messages it received are received once more and end deleted, visible again or hidden as their form and calls say, with their handlers started, or handed back if stop() came during the poll; nothing else changes; then it polls again, or is stopped |
| SqsConsumer.PollServes | src/infrastructure/sqs/consumer.ts:60-73 | what a delivered batch leaves, told from each message's form and how its calls went |
| SqsConsumer.QueueMeaning | src/infrastructure/sqs/consumer.ts:62-73 | what the queue does by itself: a hidden message comes back, a visible one is handed out until its receives are used up and then moved to the dead-letter queue |
| SqsConsumer.SqsClient.FailedPoll | src/infrastructure/sqs/consumer.ts:111-115 | a failed receive starts nothing; what the service leased before the reply was lost stays hidden without a job |
| SqsConsumer.SqsClient.Consume | src/infrastructure/sqs/consumer.ts:95-145 | the loop up to stop(): one such turn after the other, as many as the polls up to the stop; it leaves the process stopped with no job in hand and touches no message it was not handed; called before the first batch arrives, stop() lets no handler start |
| ProductSync.SettledForGood | src/consumers/product-sync.consumer.ts:40-46 | a settled job never changes again over any sequence of deliveries and status writes, one after the other, and causes no supplier call |
| JobStatus.StaysSettledIff | src/modules/system/job.service.ts:53-64 | with the guarded write's read and write as two steps of any number of writers, a job keeps its first terminal status over every interleaving exactly when its deliveries do not overlap and no other status write overlaps anything |
| JobStatus.RunKeepsInv | src/modules/system/job.service.ts:53-64 | without overlap one writer is at work at a time and its guard is up to date whenever it writes |
| JobStatus.BadRun | src/modules/system/job.service.ts:53-64 | a writer reads an open job, a whole delivery completes it, the writer writes |
| JobStatus.Unsettles | src/consumers/product-sync.consumer.ts:40-51 | that delivery, and the late write, from every state in which the first writer is about to write |
| JobStatus.DeliveryIsRun | src/consumers/product-sync.consumer.ts:32-163 | a delivery that nobody disturbs leaves, step by step, the status its handler leaves in one piece |
| JobDeliveries.StaysSettledIff | src/infrastructure/sqs/consumer.ts:210-225 | on a queue that allows two receives, over every timed run of the queue and the job's deliveries, the first terminal status is for good exactly when the lease outlasts the longest gap between renewals |
| JobDeliveries.SettledWhileLeasesHold | src/consumers/product-sync.consumer.ts:40-46 | in every run in which no lease runs out before or under a handler a job keeps its first terminal status |
| JobDeliveries.JobSide | src/infrastructure/sqs/consumer.ts:227-235 | in such a run the deliveries of a job, each belonging to a running handler, never overlap |
| JobDeliveries.SecondCompletes | src/modules/system/job.service.ts:53-64 | where two handlers of one message run, the one marks PROCESSING a job the other has completed |
| ProductSync.FlowIff | src/consumers/product-sync.consumer.ts:70-143 | the loop gets through exactly when no item kills the worker and every failed item's last note lands; it throws exactly when the first item that stops it does so by a note that throws |
| ProductSync.StatusIff | src/consumers/product-sync.consumer.ts:50-162 | the status a delivery leaves an open job in, told from its items and calls: FAILED exactly on a final attempt with the supplier missing or such a note, COMPLETED exactly when all items get through and the write commits, its reply lost or not |
| ProductSync.FailedIsFinal | src/consumers/product-sync.consumer.ts:153-154 | FAILED is written only by a running handler whose message no run of the queue delivers again, the consumer's limit not being below the queue's |
| ProductSync.AckIff | src/consumers/product-sync.consumer.ts:145-162 | a delivery of an open job is acknowledged exactly when all its items get through and no later write kills the worker |
| ProductSync.AckSettlesIff | src/modules/system/job.service.ts:29-69 | an acknowledged job is settled exactly when it was before or the COMPLETED write committed |
| ProductSync.LostCompletion | src/modules/system/job.service.ts:61-68 | an acknowledged delivery whose job stays PROCESSING |
| ProductSync.CountsAddUpIff | src/consumers/product-sync.consumer.ts:67-143 | the success and fail counts of a chunk add up to its size exactly when no not-found note threw |
| ProductSync.CompletedTotals | src/consumers/product-sync.consumer.ts:145-146 | the counters a completed job records sum to its size and the notes lost |
| ProductSync.CompletedCounters | src/consumers/product-sync.consumer.ts:67-146 | the success count of a completed job is the number of items imported, its fail count the others and the notes lost |
| ProductSync.RowMeaning | src/consumers/product-sync.consumer.ts:145-162 | what one delivery leaves in the job's row besides the status: the counters of items gone through, the attempt noted when it throws and is not final, the error |
| ProductSync.ResultMeaning | src/consumers/product-sync.consumer.ts:36-162 | when a delivery throws, when it is acknowledged, and when it leaves the job PROCESSING or untouched |
| ProductSync.MarksUpTo | src/consumers/product-sync.consumer.ts:70-143 | a delivery cut short has called the supplier once for each item up to that one, and leaves the marks of the items before it and what that item got to write |
| ProductSync.NothingDone | src/consumers/product-sync.consumer.ts:36-40 | an invalid payload, or a lookup that fails, changes nothing |
| ProductSync.CountedTwice | src/consumers/product-sync.consumer.ts:127-142 | an item counted twice |
| ProductSync.MarksMatch | src/consumers/product-sync.consumer.ts:103-142 | an acknowledged delivery leaves each mapped product marked SUCCESS exactly when its last item was imported, FAILED otherwise |
| ProductSync.ProductSyncConsumer.HandleProductSync | src/consumers/product-sync.consumer.ts:31-163 | the handler step by step, with the effect and result of the function the lemmas speak of, and the row's counters, attempts and error told from the items |
| ProductSync.ProductSyncConsumer.SyncItems | src/consumers/product-sync.consumer.ts:67-143 | the loop over the external ids with its two counters |
| ProductSync.ProductSyncConsumer.FetchAndImport | src/consumers/product-sync.consumer.ts:72-126 | the try block of one item: when it imports, finds nothing, throws or dies, and what it wrote, replies lost included |
| ProductSync.ProductSyncConsumer.UpdateJobStatus | src/modules/system/job.service.ts:29-69 | a status write never leaves a terminal status and swallows its errors |
| Resync.PlanCovers | src/modules/catalog/product-sync.service.ts:43-74 | the chunks of all suppliers, in order, are exactly their imported ids; each has 1 to 50 of them, and there are as many as the sum of n/50 rounded up |
| Resync.ChunkAt | src/modules/catalog/product-sync.service.ts:43-74 | all chunks of a supplier but the last are full: the i-th has the ids from 50 i on |
| Resync.PublishedIff | src/modules/system/job-queue.service.ts:24-48 | a resync goes through exactly when every chunk was queued, and the rows made follow the plan |
| Resync.PublishedUpTo | src/modules/system/job-queue.service.ts:24-48 | when a chunk fails, all before it are queued, its own row is not and is FAILED if that was written, and none follows |
| Resync.EndToEnd | src/modules/catalog/product-sync.service.ts:43-80 | when every job has completed, all counters together make the products queued and the not-found notes lost |
| Resync.ProductSyncService.ResyncAll | src/modules/catalog/product-sync.service.ts:27-81 | the nested loops: the rows made, and the totals returned when nothing throws |
| Resync.ProductSyncService.PublishJob | src/modules/system/job-queue.service.ts:24-48 | one job row and its message; a failed enqueueing marks the row |
| WebhookIdentity.RoundTrip | src/utils/webhook-identity.ts:29-37 | reading a canonical print back, with anything after it, gives the value with its keys sorted at every level |
| WebhookIdentity.PrintsSameIff | src/utils/webhook-identity.ts:25-37 | two payloads print the same exactly when they differ only in the order of keys |
| WebhookIdentity.StringRoundTrip | src/utils/webhook-identity.ts:30-35 | strings as JSON.stringify escapes them, lone surrogates included, read back as themselves |
| WebhookIdentity.PrintsJson | src/utils/webhook-identity.ts:29-37 | the punctuation and words of the print are JSON's |
| WebhookIdentity.ShortEscapes | src/utils/webhook-identity.ts:30-35 | the seven short escapes of JSON.stringify |
| WebhookIdentity.LongEscapes | src/utils/webhook-identity.ts:30-35 | all other controls and half surrogate pairs are escaped in lower-case hex, and nothing else is |
| Json.OrderIsUnique | src/utils/webhook-identity.ts:32-34 | two sorted member lists with the same keys list them at the same places |
| Json.SortedIsInOrder | src/utils/webhook-identity.ts:32-34 | sorting distinct keys by code units puts them in strict order |
| WebhookIdentity.SameEventId | src/utils/webhook-identity.ts:50-56 | reordering keys at any depth changes no event id, through the identity paths or the hash |
| WebhookIdentity.HashedEventIdIff | src/utils/webhook-identity.ts:39-56 | without a provider id, two payloads share an id exactly when they are the same up to key order or the hash collides |
| WebhookIdentity.SharedEventIdIff | src/utils/webhook-identity.ts:39-56 | any two payloads share an id exactly when both carry the same provider id, or one carries a provider id that spells out the other's hash, or neither carries one and they are the same up to key order or collide |
| WebhookIdentity.HashCanBeSpelt | src/utils/webhook-identity.ts:50-56 | for every payload without a provider id and every hash, a different payload with the same id |
| WebhookIdentity.ReadPath | src/utils/webhook-identity.ts:16-23 | the cursor loop finds what following the path finds |
| WebhookIdentity.DeriveWebhookEventId | src/utils/webhook-identity.ts:50-56 | the loop over the identity paths with its fallback |
| WebhookIdentity.EventIdIsFirstName | src/utils/webhook-identity.ts:8-23 | the id is the non-empty string at the first of data.id, id, event_id, eventId and data.object.id that has one |
| WebhookIdentity.EventIdIsHash | src/utils/webhook-identity.ts:50-56 | when none has, it is `sha256:` and the hash of the print |
| Pricing.RoundingBounds | src/utils/pricing.util.ts:30-31 | rounding moves an amount by at most half a cent and EPSILON, to whole cents |
| Pricing.RoundingIsMonotone | src/utils/pricing.util.ts:69-69 | rounding keeps order |
| Pricing.RoundingFixesIff | src/utils/pricing.util.ts:69-69 | an amount is left alone exactly when it is whole cents |
| Pricing.PriceMeaning | src/utils/pricing.util.ts:41-78 | the price of any cost under any rule, told from the rule's columns: whole cents nearest to the cost with its percentage or amount on top, raised to cost and minimum profit; the cost itself without an active rule; and the margin |
| Pricing.SaleMeaning | src/utils/pricing.util.ts:22-32 | a sale price is the whole cents nearest to the price less the percentage or amount, and never below zero |
| Pricing.PriceIsMonotone | src/utils/pricing.util.ts:41-78 | a costlier variant is never cheaper, for markups of at least -100 % |
| Pricing.MonotoneIff | src/utils/pricing.util.ts:53-69 | an active rule keeps the order of costs exactly when it adds an amount, has a markup of at least -100 %, or a minimum profit that is not negative or too slightly so to show in cents |
| Pricing.AcceptedRulesKeepOrder | src/modules/catalog/pricing-rule.controller.ts:16-21 | every rule the controller accepts keeps the order of costs |
| Pricing.MarginIff | src/utils/pricing.util.ts:69-70 | the reported margin is price minus cost exactly for whole-cent costs |
| Pricing.MinimumProfitIsMet | src/utils/pricing.util.ts:62-70 | for whole-cent cost and minimum profit the rounded margin reaches the minimum |
| Pricing.SaleNeverNegative | src/utils/pricing.util.ts:22-32 | a sale price is never below zero |
| Pricing.SaleNeverRaisesIff | src/utils/pricing.util.ts:22-32 | no non-negative sale raises a price exactly when that price is non-negative and rounding does not raise it |
| Pricing.SaleOnWholeCents | src/utils/pricing.util.ts:22-32 | on a whole-cent price, 0 <= sale price <= price |
| Catalog.LowestCostIsLowestPrice | src/utils/pricing.util.ts:41-78 | the lowest variant price is the price of the lowest cost, under any rule that keeps order |
| Catalog.InactiveRuleSells | src/modules/catalog/pricing-rule.service.ts:270-273 | while its sale's window is open an inactive rule's products show their cost less the sale |
| Catalog.RepricedAgain | src/modules/catalog/pricing-rule.service.ts:154-157 | recalculating one set of products after another is recalculating their union: order and repetition do not matter |
| Catalog.RepricedKeepsInv | src/modules/catalog/pricing-rule.service.ts:240-279 | recalculation keeps the structural invariant, puts every variant it reaches in line with its rule and puts none out of line |
| Catalog.RepricedShowsLowest | src/modules/catalog/pricing-rule.service.ts:270-278 | a recalculated product shows the lowest price of its live variants, and the sale on it while its window is open |
| Catalog.RepricedMeaning | src/modules/catalog/pricing-rule.service.ts:240-279 | a recalculation leaves exactly the live variants with a cost at the prices their rule's columns mean, and the product at the lowest live price and the sale on it; all other rows stay |
| Catalog.SaleNowMeaning | src/utils/pricing.util.ts:15-20 | a sale price is shown from startsAt to endsAt, both included, and at no other time |
| Catalog.CatalogDb.RecalculateProductPricing | src/modules/catalog/pricing-rule.service.ts:240-279 | reprices the live variants and the product as the rule's columns say, and nothing else |
| Catalog.CatalogDb.RepriceVariants | src/modules/catalog/pricing-rule.service.ts:256-268 | writes each new variant price and collects them all, those kept included |
| Catalog.CatalogDb.RecalculateAll | src/modules/catalog/pricing-rule.service.ts:154-157 | several products in any order leave what all at once would |
| PricingRules.CreateKeepsInv | src/modules/catalog/pricing-rule.service.ts:89-111 | creating a rule keeps uniqueness, the single default and sound references, and puts no variant out of line with its rule |
| PricingRules.UpdateKeepsInv | src/modules/catalog/pricing-rule.service.ts:113-161 | so does updating one |
| PricingRules.DeleteKeepsInv | src/modules/catalog/pricing-rule.service.ts:163-185 | so does deleting one: no live product points at a deleted rule |
| PricingRules.ApplyKeepsInv | src/modules/catalog/pricing-rule.service.ts:193-229 | so does making a rule the default for all |
| PricingRules.AssignKeepsInv | src/modules/catalog/product.service.ts:288-293 | so does putting a product on another rule or on none |
| PricingRules.AssignShowsLowest | src/modules/catalog/product.service.ts:288-293 | that product then shows its lowest price under the new rule, and no other product or its variants move |
| PricingRules.UpdateShowsLowest | src/modules/catalog/pricing-rule.service.ts:145-158 | after a price-moving update each live product on the rule shows the lowest price of its live variants |
| PricingRules.UpdateMeaning | src/modules/catalog/pricing-rule.service.ts:131-158 | an accepted update gives each column the value named for it and leaves the rest of the row and all other rules; when it moves prices, exactly the live products on the rule are recalculated by the new row |
| PricingRules.UpdatedVariantPrice | src/modules/catalog/pricing-rule.service.ts:145-158 | so each live variant with a cost, on a live product on the rule, has the price the new row means |
| PricingRules.UpdateOutcomeIff | src/modules/catalog/pricing-rule.service.ts:113-130 | which updates are refused and why: the rule is missing, another rule has the name, or the sale ends before it starts |
| PricingRules.CreateMeaning | src/modules/catalog/pricing-rule.service.ts:89-111 | which creates are refused, and the active, non-default percentage rule that an accepted one adds |
| PricingRules.DeleteMeaning | src/modules/catalog/pricing-rule.service.ts:163-185 | which deletes are refused and why, and that an accepted one removes its rule alone |
| PricingRules.AssignMeaning | src/modules/catalog/product.service.ts:253-293 | which assignments are refused; a changed rule recalculates that product by its new rule, an unchanged one nothing |
| PricingRules.ApplyReprices | src/modules/catalog/pricing-rule.service.ts:193-229 | making a rule the default changes nothing in any rule but the flag, and recalculates exactly the live products then on it |
| PricingRules.ApplyCounts | src/modules/catalog/pricing-rule.service.ts:228-228 | the number answered is that of the products it moved |
| PricingRules.UpdateLeavesOthers | src/modules/catalog/pricing-rule.service.ts:154-157 | products on other rules and their variants are untouched |
| PricingRules.ApplyMeaning | src/modules/catalog/pricing-rule.service.ts:187-229 | afterwards the rule is the one default, exactly the unassigned live products and those on the previous default moved to it, and nothing is left to sweep |
| PricingRules.ApplyShowsLowest | src/modules/catalog/pricing-rule.service.ts:218-226 | every live product on the new default shows the lowest price of its live variants |
| PricingRules.CreateRule | src/modules/catalog/pricing-rule.service.ts:89-111 | the operation with its refusals |
| PricingRules.UpdateRule | src/modules/catalog/pricing-rule.service.ts:113-161 | the operation with its refusals; the row and the prices it leaves are told from the columns |
| PricingRules.AssignRule | src/modules/catalog/product.service.ts:253-293 | the operation with its refusals; an unchanged rule recalculates nothing |
| PricingRules.DeleteRule | src/modules/catalog/pricing-rule.service.ts:163-185 | the operation with its refusals, the database's own restriction included |
| PricingRules.ApplyToAll | src/modules/catalog/pricing-rule.service.ts:193-229 | the operation, with the number of products it moved |
| PricingRules.MakeDefault | src/modules/catalog/pricing-rule.service.ts:212-216 | the transaction that swaps the default and moves the products |
| PricingRules.FindDefault | src/modules/catalog/pricing-rule.repository.ts:39-41 | finds the default rule, of which there is at most one |
| ProductImport.ImportKeepsInv | src/modules/catalog/product-import.service.ts:294-557 | an import keeps sound references, the single default and the injective links, puts no variant out of line, and a tenant that has a default keeps it |
| ProductImport.ImportPlaces | src/modules/catalog/product-import.service.ts:420-520 | every payload variant ends on the imported product, on the catalog variant it had or a new one, with the reported stock if that is a number of at least zero and 999 otherwise |
| ProductImport.ImportSettles | src/modules/catalog/product-import.service.ts:420-520 | with distinct ids each payload variant also ends with exactly its own cost, price and link |
| ProductImport.ImportMeaning | src/modules/catalog/product-import.service.ts:294-557 | for any payload and stock report, told from these: the product it goes to and its rule; for each variant the catalog variant it had or a new one, with the reported stock or 999; for the last variant of each id its cost, price and link; the prices shown; and that every other row stays |
| ProductImport.ReimportCreatesNothing | src/modules/catalog/product-import.service.ts:447-452 | importing a payload again creates no row and moves no link |
| ProductImport.ReimportIsNoop | src/modules/catalog/product-import.service.ts:294-557 | with distinct ids it changes nothing at all |
| ImportPrices.RecalculationAgreesIff | src/modules/catalog/product-import.service.ts:538-556 | for every payload with variants, told from the tables before the import: recalculating right after it changes nothing exactly when all payload variants are soft-deleted and the product has no unlisted live one, or the unlisted ones have their rule's prices and the payload's cheapest price is the cheapest left live |
| ImportPrices.NothingLiveIff | src/modules/catalog/product-import.service.ts:447-452 | no price is left live exactly when all payload variants are soft-deleted and none of the product's live variants is unlisted |
| ImportPrices.LiveProductIsUpToDate | src/modules/catalog/pricing-rule.service.ts:240-279 | on a live or new product the unlisted variants are as recalculation would leave them, if none of them is out of line |
| ImportPrices.ImportAgreesWithRecalculation | src/modules/catalog/product-import.service.ts:538-556 | so the two agree when the payload's ids are distinct, list all live variants of the product, and none of theirs is soft-deleted |
| ImportPrices.RecalculatedPrice | src/modules/catalog/pricing-rule.service.ts:270-278 | what the product shows after the import and after recalculating it, both told from the tables before |
| ImportPrices.RecalculationLowersIff | src/modules/catalog/product-import.service.ts:538-556 | recalculation lowers the price exactly when an unlisted variant is cheaper than the whole payload |
| ImportPrices.RecalculationRaisesIff | src/modules/catalog/product-import.service.ts:447-451 | it raises the price exactly when something is left live and nothing live is as cheap as the payload's cheapest |
| ImportPrices.PricesAfter | src/modules/catalog/product-import.service.ts:420-520 | the prices recalculation finds after the loop are those of the last payload variant of each id that is not soft-deleted, and of the unlisted variants |
| ImportPrices.ImportRestores | src/modules/catalog/product-import.service.ts:420-452 | a variant the payload lists has its rule's price after the import, whatever it had before |
| ImportPrices.EmptyImportAgreesIff | src/modules/catalog/product-import.service.ts:545-545 | the same question for a payload without variants, which sets the price to 10 |
| ImportPrices.DeletedVariantDisagrees | src/modules/catalog/product-import.service.ts:447-451 | tables with every price in line, and a payload with distinct ids listing all live variants, on which the two disagree |
| ImportPrices.DuplicateIdsDisagree | src/modules/catalog/product-import.service.ts:420-435 | a first import with one id twice on which they disagree |
| ProductImport.ImportProduct | src/modules/catalog/product-import.service.ts:294-557 | the import with its refusals; what it leaves is told from the payload and the stock report |
| ProductImport.ImportInTransaction | src/modules/catalog/product-import.service.ts:294-557 | the transaction step by step |
| ProductImport.ImportVariants | src/modules/catalog/product-import.service.ts:405-536 | the loop over the variants and the prices it collects |
| ProductImport.ImportVariant | src/modules/catalog/product-import.service.ts:420-520 | one variant: found through its link or created, repriced, linked |
| ProductImport.UpsertProduct | src/modules/catalog/product-import.service.ts:336-388 | the product and supplier-product upserts; a new product takes the default rule |
| CatalogRuns.RunKeepsInv | src/modules/catalog/pricing-rule.service.ts:113-229 | over every history of rule operations, assignments, imports, products and variants added or soft-deleted by hand and price edits, references are sound, names and slugs unique, links injective, with one default at most |
| CatalogRuns.AlwaysPricedIff | src/modules/catalog/product.service.ts:337-352 | all along a history every live variant with a cost, on a live product, has its rule's price exactly when no accepted edit gives such a variant another one |
| CatalogRuns.StraysIff | src/modules/catalog/product.repository.ts:615-627 | the same for one step |
| CatalogRuns.PricedFromTheStart | src/utils/pricing.util.ts:41-78 | so from empty tables on, without such an edit, each such variant's price is the one that its cost and its rule's columns mean |
| CatalogRuns.StepKeepsPrice | src/modules/catalog/product.repository.ts:615-627 | no operation but an edit of its own puts a variant out of line |
| CatalogRuns.InLineForGood | src/modules/catalog/product.repository.ts:615-627 | whatever is edited elsewhere, a variant that no edit names stays in line over every history |
| CatalogRuns.ReachedIsInLine | src/modules/catalog/pricing-rule.service.ts:240-279 | a rule change, sweep or assignment that recalculates a variant's product, or an import that lists the variant, gives it its rule's price whatever it had |
| CatalogRuns.HandSetPrice | src/modules/catalog/product.service.ts:337-352 | tables with every price in line, and an accepted edit that breaks one |
| CatalogRuns.UpdateVariant | src/modules/catalog/product.service.ts:337-357 | the edit with its refusals |
| CatalogRuns.AddProductMeaning | src/modules/catalog/product.service.ts:230-250 | a product added by hand is on the rule chosen, on none if that was chosen, or on the default |
| CatalogRuns.RefusedProduct | src/modules/catalog/product.service.ts:233-237 | a taken slug or a missing rule refuses it |
| CatalogRuns.AddVariantMeaning | src/modules/catalog/product.service.ts:320-335 | a variant added by hand has the price given and no cost |
| CatalogRuns.HandEditMeaning | src/modules/catalog/product.service.ts:337-371 | deleting a product or variant by hand marks its row, a price edit writes the price given, and nothing else changes |
| CatalogRuns.DefaultForGood | src/modules/catalog/pricing-rule.service.ts:208-216 | a tenant that has a default rule has exactly one ever after |
| CatalogRuns.LinksForGood | src/modules/catalog/product-import.service.ts:447-499 | a supplier variant keeps its catalog variant for good and shares it with no other |
| VariantAttributes.CacheRefinesIff | src/modules/catalog/attribute.repository.ts:267-346 | a run of variants with a shared cache leaves the same attributes, values, captions, swatches and links as without one, on any tables, exactly when no two labels share a key |
| VariantAttributes.ColonFreeCodes | src/modules/catalog/attribute.repository.ts:290-290 | codes without a colon never collide |
| VariantAttributes.ColonCodesCollide | src/modules/catalog/attribute.repository.ts:290-290 | two labels with colons that share a key |
| VariantAttributes.SettledUpsert | src/modules/catalog/attribute.repository.ts:297-334 | upserting a settled label again changes nothing |
| VariantAttributes.PlainSettles | src/modules/catalog/attribute.repository.ts:285-345 | every label of a variant ends settled and the links are the ids of the labels' rows |
| VariantAttributes.CaptionsStay | src/modules/catalog/attribute.repository.ts:313-324 | an edited caption stays unless its own label still carries a SKU prefix |
| VariantAttributes.UpsertMeaning | src/modules/catalog/attribute.repository.ts:297-334 | one label's upsert finds or makes its attribute, and makes its value with caption and swatch or changes an existing one only where the label asks; all other rows stay |
| VariantAttributes.LinksMeaning | src/modules/catalog/attribute.repository.ts:337-345 | the variant's links become exactly its labels' rows, and no other variant's links change |
| VariantAttributes.IdsStayDifferent | src/modules/catalog/attribute.repository.ts:297-334 | value rows keep ids of their own, so links never confuse two labels |
| VariantAttributes.LabelOf | src/modules/catalog/attribute.repository.ts:285-288 | an attribute becomes a label, code trimmed in lower case and value trimmed, unless either is then empty |
| VariantAttributes.LabelsJoin | src/modules/catalog/attribute.repository.ts:285-288 | and attributes become labels one by one, in order |
| VariantAttributes.CaptionMeaning | src/modules/catalog/attribute.repository.ts:89-101 | a caption is the value with a capital; a colour's is what follows its SKU code, if anything does; and exactly values with such a code overwrite captions |
| VariantAttributes.SkuPrefixIff | src/modules/catalog/attribute.repository.ts:89-89 | a SKU code is two to six letters, two to five digits and all the space after them |
| VariantAttributes.SwatchMeaning | src/modules/catalog/attribute.repository.ts:71-81 | exactly colours whose normalised name is in the palette get a swatch, the palette's |
| VariantAttributes.DashedRun | src/modules/catalog/attribute.repository.ts:71-76 | runs of spaces and underscores become one dash |
| VariantAttributes.AttributeRepository.UpsertVariantAttributesFromLabels | src/modules/catalog/attribute.repository.ts:276-346 | the loop with its cache and the rewriting of links |
| VariantAttributes.AttributeRepository.UpsertLabel | src/modules/catalog/attribute.repository.ts:297-334 | the two upserts of one label |
| VariantAttributes.AttributeRepository.UpsertValue | src/modules/catalog/attribute.repository.ts:321-334 | the value upsert: what it creates, what it overwrites and what it keeps |
| VariantAttributes.AttributeRepository.ValueId | src/modules/catalog/attribute.repository.ts:290-337 | a label's row id, from the cache where it is there |
| VariantKey.RoundTripIff | src/modules/catalog/product-import.service.ts:85-103 | equally many dash-joined labels and parts come back as exactly the label-to-part map, if and only if no label stands for two parts |
| VariantKey.CountsDiffer | src/modules/catalog/product-import.service.ts:99-102 | when the numbers differ the whole key is kept under `variant` |
| VariantKey.DashesOnly | src/modules/catalog/product-import.service.ts:89-101 | a key and label list without any piece come back as no label at all |
| VariantKey.SplitJoined | src/modules/catalog/product-import.service.ts:90-97 | splitting joined dash-free pieces gives them back |
| VariantKey.RawPieces | src/modules/catalog/product-import.service.ts:85-103 | for any labels and parts, clean or not: parts are trimmed, labels trimmed and in lower case, empty ones dropped; equal numbers pair up with the last of a label winning, unequal ones keep the whole key |
| VariantKey.NothingToSplit | src/modules/catalog/product-import.service.ts:89-102 | no key gives nothing, and no list of labels the whole key under `variant` |
| AuthSessions.RunKeepsInv | src/modules/auth/auth.service.ts:154-183 | each session's token is its newest and the session outlives every token it was given, over every run |
| AuthSessions.AcceptsOnlyNewest | src/modules/auth/auth.service.ts:92-128 | in every reachable state a refresh succeeds exactly for the newest token of a session not ended, before it runs out, while its user is there |
| AuthSessions.SingleUse | src/modules/auth/auth.service.ts:85-91 | over every run a refresh token is accepted at most once |
| AuthSessions.StaleForGood | src/modules/auth/auth.service.ts:114-121 | a replaced token stays refused whatever follows |
| AuthSessions.EndedSessionIsDead | src/modules/auth/auth.service.ts:107-112 | no token of an ended session is accepted again |
| AuthSessions.ReuseEndsSessionIff | src/modules/auth/auth.service.ts:114-121 | presenting a replaced token is refused and ends its session, and no other, exactly when that token has not itself run out |
| AuthSessions.LateReuseGoesUnnoticed | src/modules/auth/auth.service.ts:95-102 | a run in which a replaced token is presented after its week and the session goes on |
| AuthSessions.LogoutEnds | src/modules/auth/auth.service.ts:134-149 | logging out with a token, run out or not, ends its session and no other |
| AuthSessions.LoginMeaning | src/modules/auth/auth.service.ts:73-75 | a login of a known user makes a session of its own with a token good for seven days, and changes nothing else |
| AuthSessions.RefreshMeaning | src/modules/auth/auth.service.ts:92-128 | in every reachable state, for which reason a refresh is refused, and the token, session row and expiry an accepted one leaves |
| AuthSessions.GoodForAWeek | src/modules/auth/auth.service.ts:154-183 | a login's token is accepted for exactly the seven days that follow |
| AuthSessions.LogoutMeaning | src/modules/auth/auth.service.ts:134-149 | a logout forgets the user, ends the genuine token's session and does nothing else |
| AuthSessions.AuthService.RefreshToken | src/modules/auth/auth.service.ts:92-128 | the operation with its refusals |
| AuthSessions.AuthService.GenerateAuthResponse | src/modules/auth/auth.service.ts:154-183 | a fresh token, stored in a new session or in the one kept |
| AuthSessions.AuthService.LogoutUser | src/modules/auth/auth.service.ts:134-149 | the operation; an invalid token or missing session is passed over |
| AuthSessions.AuthService.LoginUser | src/modules/auth/auth.service.ts:73-75 | the end of a login: a session and its first token |
| Collections.RunKeepsInv | src/modules/catalog/collection.service.ts:82-220 | over every run the parent links form a forest and slugs are unique, those of deleted rows included |
| Collections.NoCycles | src/modules/catalog/collection.service.ts:141-174 | no collection is ever its own ancestor |
| Collections.TwoLevelsIff | src/modules/catalog/collection.service.ts:95-98 | updates and deletes never nest deeper than two levels; a create does exactly when its parent is nested |
| Collections.TwoLevelsThroughoutIff | src/modules/catalog/collection.service.ts:148-173 | along a run the depth stays at two exactly when every accepted create names a top-level parent |
| Collections.ThreeLevels | src/modules/catalog/collection.service.ts:95-98 | three creates that nest three levels deep |
| Collections.DeletedForGood | src/modules/catalog/collection.service.ts:106-112 | a deleted collection never changes again and its slug is never free again |
| Collections.CreateMeaning | src/modules/catalog/collection.service.ts:82-125 | exactly which creates are refused and with which status, and the one row an accepted one adds |
| Collections.UpdateRefusals | src/modules/catalog/collection.service.ts:127-200 | exactly which updates are refused and with which status |
| Collections.UpdateEffect | src/modules/catalog/collection.service.ts:187-213 | an accepted update changes its own row's slug and parent as asked, and nothing else |
| Collections.DeleteMeaning | src/modules/catalog/collection.service.ts:215-220 | a delete of a live collection marks it and nothing else; any other is refused |
| Collections.CollectionService.CreateCollection | src/modules/catalog/collection.service.ts:82-125 | the operation with its refusals |
| Collections.CollectionService.UpdateCollection | src/modules/catalog/collection.service.ts:127-213 | the operation with its refusals |
| Collections.CollectionService.DeleteCollection | src/modules/catalog/collection.service.ts:215-220 | the operation with its refusals |

## Left out

- Routes, controllers, schemas, CMS, storage, seeders, metrics and logging: they would only add easy members.
- Other tenants: the tables are those of one tenant. Supplier products are keyed without a tenant in the source, so two tenants importing one supplier product share its row; that is not modelled.
- IEEE-754 and the Decimal(18,4) columns: amounts are exact reals, with EPSILON and Math.round as in the source.
- The JSON tokens of numbers: a number is its printed text. Payloads that JSON cannot carry, such as `undefined` inside arrays beyond its printing as null, Dates or cycles, do not arise from parsed requests.
- SHA-256, JWT signatures, random ids: an arbitrary function, the set of tokens signed so far, and counters.
- Text: trimming, case mapping and white space are arbitrary functions. Looking a swatch up under the name of a built-in object property is not modelled.
- Product import: categories, media, titles, SKUs, the inventory location's stock, payload normalisers, slug derivation, and the roll-back of a failed transaction.
- Interleaved admin requests and token refreshes: these operations run one after the other. Only the queue, the refund job and the sync job's status are interleaved.
- Admin edits of a product's slug or displayed price, and of a variant's other columns.
- ProductSync.SettledForGood: deliveries of one job and status writes follow each other; overlapping ones are the matter of `JobStatus`, for the status alone. Counters and marks of overlapping deliveries are not modelled.
- JobStatus.StaysSettledIff: a write cut short, by a lost reply or a dying process, has committed or not, at once. The read and the write of one status are two steps; the payload's read and write in between change no status.
- JobDeliveries.StaysSettledIff: a job has one message, and nobody else writes its status meanwhile; writers beside the deliveries are in `JobStatus`.
- RefundDeliveries.AtMostOnceIff: a handler may return or throw once its delivery is over, whichever way that went. A process dies with all its deliveries when one of them is cut short in its call.
- OneWorker.NeverTwoIff: how long a handler takes to begin after its receive is bounded by the network's latency. The first beat is one interval after the handler's begin.
- SupplierRefund.HandleSupplierRefund: the heartbeat is not part of it; the marker of a document written before refunds had ids (the `refund` key) is not modelled. A database call cut short has committed or not, at once.
- SqsConsumer.SqsClient.Consume: jobs of one batch finish one after the other, in any order; the step system has every interleaving. Heartbeats are in `Lease` and `OneWorker`. An envelope is well formed or not.
- Collections.CollectionService.UpdateCollection: only the slug and the parent; the other columns, and the clean-up of replaced images, have no bearing on the forest.
- AuthSessions.AuthService.RefreshToken: a token signed without a session id does not arise here; the clock is read once per operation. Password checks, Google sign-in and registration come down to `LoginUser`.
- Category nesting: the source guards it only against self-parenting.
