# The invoicing workflow, modelled and proved

An organization creates invoices, validates them (which gives them a legal number), has an electronic
invoice generated and checked, sends it to an approved platform, and follows the statuses that come back
until the invoice is paid, refused, rejected or cancelled by a credit note. Payments arrive on their own
schedule, sometimes before the invoice is emitted. This project models that workflow and the calculations
around it, and proves what holds in every run.

## How it is built

The workflow is a labelled transition system. `Records.State` holds the invoice rows, the append-only audit
log, the numbering counters, the ids of the payment events received and the checkout transactions. Every
service call, task body and inbound event is one atomic step (`Runs.Apply`), and `Runs.Run` is any finite
sequence of steps from the empty database. There is no queue of pending tasks: a task may run at any moment
and any number of times, its own status check deciding whether it does something. That allows more runs
than the queue does, so what is proved of all runs covers late, lost and repeated tasks.

Four layers describe each operation. `InvoiceService`, `Tasks` and `Payments` say what it does to the rows.
`Store.BillingStore` is the same operation as it runs, a method that assigns fields, loops and returns early,
proved to have exactly that effect; its `Step` and `Perform` carry every theorem about runs over to the store.
`ServicePromises`, `TaskPromises`, `PollPromises`, `PaymentPromises` and `EnrichmentPromises` say field by field what
a caller gets, in terms of the rows alone.
`Steps`, `History`, `Numbering`, `Collisions`, `Clashes`, `Cancellation`, `Overcrediting`, `Prepaid`, `Webhooks`,
`Polling`, `Verdicts` and `Arrivals` prove what follows for whole runs. The calculations have the same shape: `Totals`,
`JsTotals`, `Calendar`, `Enrichment`, `DeepMerge`, `Catchup`, `Timeline` and `Amounts` each prove their loops against a
definition of the result, and then prove what the result promises; `Engines` compares the two totals engines.

Conventions that the statements rely on:

- An invoice is known by its creation rank; soft deletion keeps the row. User actions look invoices up as the
  API does, deleted ones excluded; tasks look up any row.
- Remote answers, today's date, rendered number prefixes, merged and enriched snapshots are arguments of the
  steps, so they range over every value.
- Two exceptions after a saved status change are modelled, because they break guarantees: in
  `generate_and_validate_invoice` after VALIDATED is saved (`Interrupted`, apps/factpulse/tasks.py:134-166),
  and in the event loop when the webhook of a status change cannot be emitted (`DoPollInterrupted`,
  apps/factpulse/tasks.py:714-725). The table is respected exactly in the runs without the first; cancelled
  invoices stay credited exactly when it befalls no credit note that cancels; recorded payments are applied at
  once exactly when the second befalls no deposit of an invoice paid for. `Counterexamples` gives a run for each.
- Where the docstring of `poll_cdar_events` (apps/factpulse/tasks.py:519-523) sends code 210 to rejected, the
  code maps 210 to refused (594-599), and so does the model.
- Amounts are cents or exact reals. VAT rates are decimal text, so `20` and `20.00` are different bucket keys,
  as they are in both engines.

## Results that were not to be expected

- A generation interrupted after VALIDATED was saved writes VALIDATED to DRAFT, which the table forbids. If the
  invoice was a credit note, its original stays cancelled while the credit note is a draft again
  (`CrashLeavesTable`, `InterruptedCreditNote`).
- When webhooks cannot be emitted while its deposit is polled, an invoice paid beforehand rests in TRANSMITTED:
  the deposit is logged and never processed again. It is paid later, with its acceptance or by a further payment
  (`InterruptedDeposit`, `StrandedNext`, `StrandedPaidByHand`).
- The order in which lifecycle events reach an invoice in transmission matters exactly when it is unpaid and they
  hold a deposit together with an acceptance or a refusal, or when it was paid for and they hold a deposit together
  with a rejection (`ArrivalFreeIff`). An acceptance or a refusal polled before the deposit does not apply, is logged,
  and lost (`EarlyVerdictIsLost`); an invoice paid for that is deposited and then rejected ends PAID
  (`PaidForIsDecidedFirst`).
- Polling in increments equals one poll exactly when the later batch repeats no (code, time) pair that the
  earlier one brought in (`IncrementalPollingIff`).
- The gross total of the JavaScript engine fails to be net plus VAT exactly when the VAT falls between two cents
  and the net amount reverses its sign, for which a credit line is needed (`JsGrossAddsUpIff`, `JsGrossCanFail`).
- `cancel_invoice` accepts a TRANSMITTED or ACCEPTED invoice, but its credit note, issued in full, leaves that
  invoice as it was: only VALIDATED and PAID ones become cancelled (`CancelledThroughIff`).
- Nothing stops two cancellations of one invoice, and both credit notes can be emitted in full
  (`CreditedOnceIff`, `CreditedInFullTwice`).
- A Stripe payment that arrives while the invoice is TRANSMITTING is dropped, and no redelivery of that event
  repairs it (`PaymentKeptIff`, `PaymentMissed`).
- Two prefixes can print the same number exactly when one is the other read on into its counter (`CollideIff`).
  The uniqueness constraint keeps a supplier from issuing it twice, unless a draft that kept its number is handed
  to another supplier in between (`PrintedDistinct`, `CollisionReachableIff`).
- A number taken by an emitted invoice stops the series that would print it next, until its padding changes
  (`SeriesStopped`).
- For the same fields, the browser takes a missing rate as `20.00` and a missing category as S, the server as `20`,
  and as S or E by rate. Their figures agree whatever the amounts exactly when no such default, and no exemption of
  the supplier, moves a line to another bucket (`EnginesAgreeIff`).
- `deep_merge` is associative exactly on the trees of `Associates` (`AssociativeIff`).

## Model

| member | source | states |
|---|---|---|
| StateMachine.ProcessingBlockIsRedundant | apps/billing/services/state_machine.py:45-54 | the second guard of `validate_transition` accepts everything the table accepts |
| StateMachine.TrailBound | apps/billing/services/state_machine.py:12-27 | a chain of status changes is no longer than the rank it reaches plus 2 for each error fallback and 3 for each crash |
| StateMachine.ClosingLink | apps/billing/services/state_machine.py:12-27 | a change to REJECTED, REFUSED or CANCELLED is the last one; after PAID only CANCELLED can follow |
| StateMachine.EntersOnce | apps/billing/services/state_machine.py:12-27 | no chain enters PAID, REJECTED, REFUSED or CANCELLED twice |
| Steps.StepSound | apps/billing/services/invoice_service.py:28-529 | every step keeps the invariant, appends to the log, and neither renumbers a row, nor changes the document of an invoice that left DRAFT, nor touches a deleted row, nor takes back an emitted one, nor leaves a final status; only validation moves counters and only generation cancels |
| Steps.RunSound | apps/billing/models.py:366-413 | in every run totals agree with the snapshot, numbers and external ids are unique, deleted rows are unnumbered drafts, and the history of every invoice is a chain to its status |
| Steps.ValidateStep | apps/billing/services/invoice_service.py:258-346 | a validation keeps the invariant and every row, whether it commits, conflicts, or is rolled back on a number clash |
| Steps.GenerateStep | apps/factpulse/tasks.py:71-166 | a generation, failed, complete or interrupted, keeps the invariant and every row |
| Soundness.PollQuiet | apps/factpulse/tasks.py:609-846 | a whole poll keeps the invariant, follows the table, and changes no document, number or deleted row |
| History.TableRespectedIff | apps/factpulse/tasks.py:101-166 | every status change of a run is an edge of the table if and only if no generation was interrupted after VALIDATED was saved |
| History.UnbrokenHistory | apps/factpulse/tasks.py:697-712 | in every run the STATUS_CHANGE rows of an invoice chain from DRAFT to its current status, though many writers never consult the table |
| History.StatusChangesBounded | apps/billing/services/state_machine.py:12-27 | an invoice with b error fallbacks and c crashes changes status at most 7 + 2b + 3c times in any run |
| History.PaidAndCancelledOnce | apps/billing/services/invoice_service.py:380-435 | in any run an invoice is marked paid at most once and cancelled at most once |
| History.EmittedForever | apps/billing/services/invoice_service.py:165-173 | between any two moments of a run an emitted invoice stays emitted with the same document and total, a number stays, a deleted row and a final status stay |
| Cancellation.CancelledIsCreditedIff | apps/billing/services/invoice_service.py:445-529 | at every moment of a run each cancelled invoice has a credit note linked to it, emitted, with the same gross total and named in its history, if and only if no credit note was interrupted after cancelling its original |
| Cancellation.CancelledThroughIff | apps/billing/services/invoice_service.py:445-529 | a cancellation followed through validation and generation of its credit note: the credit note is issued under a number of its own, names the number it credits, has the same gross, and the original is cancelled if and only if it was VALIDATED or PAID with a gross total |
| Overcrediting.CreditedOnceIff | apps/billing/services/invoice_service.py:445-493 | at every moment of a run no emitted invoice has two emitted credit notes of its full gross total, if and only if no step emits one beside another, nor an invoice that two imported ones already credit |
| Counterexamples.CreditedInFullTwice | apps/billing/services/invoice_service.py:445-493 | a run of nine steps in which an invoice is cancelled twice and credited in full twice |
| Cancellation.NamedIsCancelled | apps/billing/services/invoice_service.py:515-529 | an invoice that the log says a credit note cancelled is cancelled |
| Cancellation.TakenBackUnbacked | apps/factpulse/tasks.py:131-166 | interrupting a cancelling credit note always leaves its original cancelled and uncredited |
| Counterexamples.CrashLeavesTable | apps/factpulse/tasks.py:118-166 | a run of three steps that leaves the table |
| Counterexamples.InterruptedCreditNote | apps/factpulse/tasks.py:131-166 | a run of six steps that leaves a cancelled invoice with a draft credit note |
| Counterexamples.InterruptedDeposit | apps/factpulse/tasks.py:714-727 | a run of seven steps after which a paid and submitted invoice rests in TRANSMITTED |
| Prepaid.StrandedNext | apps/factpulse/tasks.py:697-727 | what such an invoice does next: an acceptance pays it with the recorded date and reference and any non-zero amount, a refusal or a rejection closes it, any other event leaves it |
| Prepaid.StrandedPaidByHand | apps/billing/services/invoice_service.py:380-435 | a manual payment pays it too, values given with it before those recorded |
| Prepaid.PrepaidAppliedIff | apps/factpulse/tasks.py:743-760 | at every moment of a run no invoice with a recorded payment date rests in TRANSMITTED, ACCEPTED or REFUSED, if and only if no poll was interrupted on the deposit of a paid invoice |
| Prepaid.PollApplies | apps/factpulse/tasks.py:609-846 | a poll applies every recorded payment it can, keeps recorded dates and references, and keeps non-zero amounts |
| Prepaid.PrepaidLoopCloses | apps/factpulse/tasks.py:743-760 | a payment received for a draft, followed through validation, generation, transmission and deposit: the invoice ends PAID with the date, reference and amount first received, and its document has prepaid plus due equal to gross |
| Prepaid.ValidatedBalances | apps/billing/services/invoice_service.py:310-320 | BR-CO-16: a validated document with a recorded payment states it as prepaid, and prepaid plus due is gross |
| Prepaid.PaymentKeptIff | apps/payments/services.py:604-657 | a Stripe payment of an invoice not PAID and without recorded payment is recorded if and only if the invoice is neither TRANSMITTING nor refused, rejected or cancelled; else nothing changes |
| Counterexamples.PaymentMissed | apps/payments/services.py:173-184 | a run of eight steps that ends with a submitted invoice TRANSMITTED and unpaid, its payment delivered twice |
| Runs.AlwaysIffNever | apps/factpulse/tasks.py:101-166 | when exactly some steps break a property, a run keeps it throughout if and only if it takes none of them |
| Numbers.SamePrefixInjective | apps/billing/services/numbering_service.py:45 | under one prefix the printed number determines the counter, whatever the paddings |
| Numbers.ContinuationEndsInDigit | apps/billing/models.py:204-207 | a prefix that continues another ends in a digit, so prefixes of the default template never collide |
| Numbers.PrintInjective | apps/billing/services/numbering_service.py:45 | with prefixes that end in a non-digit, as the default template does, the printed number determines prefix and counter |
| Numbers.CollideIff | apps/billing/services/numbering_service.py:45 | two different prefixes can print the same number, at whatever paddings, if and only if one continues the other: digits follow it, the first no zero unless the padding leaves room for a counter behind them |
| Numbers.DigitPrefixCollides | apps/billing/models.py:204-207 | the shortest instance at padding 3 |
| Numbering.GaplessNumbering | apps/billing/services/numbering_service.py:36-47 | in every run the values issued in a series are exactly 1 to its counter, through failed validations, retries and rollbacks |
| Numbering.IssuedOnce | apps/billing/services/invoice_service.py:295-338 | no value is issued twice and no invoice is issued two numbers |
| Numbering.IssuedIsCarried | apps/billing/services/invoice_service.py:241-255 | the invoice a number was issued to carries it at the end of the run and is not deleted |
| Numbering.NumbersUnique | apps/billing/models.py:367-378 | in every run no two invoices of a supplier share a number, and whatever left DRAFT has its own number in its document |
| Numbering.PrintedDistinct | apps/billing/services/numbering_service.py:42-47 | two numbers that a supplier's series issue in a run print differently when neither prefix continues the other and, whatever the prefixes, when both invoices have stayed with the supplier |
| Collisions.CollisionReachableIff | apps/billing/services/numbering_service.py:36-47 | some run makes a supplier issue the same number in two series if and only if one prefix continues the other |
| Clashes.ClashIff | apps/billing/services/invoice_service.py:295-338 | validating an unnumbered draft is rolled back, leaving everything as it was, if and only if an invoice of the supplier carries the next number of the series |
| Clashes.SeriesStopped | apps/billing/models.py:367-372 | once the next number of a series is carried by an emitted invoice, no continuation of the run issues in that series at that padding |
| Webhooks.RedeliveriesIgnored | apps/payments/services.py:159-196 | any run ends in the state of the run that keeps the first delivery of each event id only, failed first deliveries included |
| Webhooks.FirstDeliveriesDistinct | apps/payments/services.py:173-184 | that run delivers the same ids, each once |
| Polling.IncrementalPollingIff | apps/factpulse/tasks.py:662-712 | on whatever days, polling A then A followed by B equals polling A followed by B once, statuses, payments and log, if and only if no event of B repeats a key that A brought in |
| Polling.IncrementalAnswersIff | apps/factpulse/tasks.py:609-668 | the same for the answers as they arrive, reports matched to invoices afresh each time |
| Polling.RepollIsNoop | apps/factpulse/tasks.py:630-641 | polling the same answer again, on whatever day, changes nothing, duplicate keys included |
| Polling.BatchProjects | apps/factpulse/tasks.py:643-666 | what a batch does to an invoice and its history is what its own events alone do |
| Polling.InterleavingIrrelevant | apps/factpulse/tasks.py:643-666 | batches with the same events per invoice in the same order, however interleaved and on whatever days, leave every invoice and its history the same |
| Arrivals.StatusOfBatch | apps/factpulse/tasks.py:671-727 | a batch of fresh events of one invoice ends in the status that folding the codes over the table gives, an invoice paid for going on to PAID where it can |
| Verdicts.AscendingVerdict | apps/factpulse/tasks.py:594-599 | folded in ascending code order, the codes decide the status of an invoice in transmission, paid for or not, as a set, whatever the repetitions |
| Verdicts.FirstDecides | apps/factpulse/tasks.py:697-727 | an invoice paid for is decided by the first deposit or rejection folded: PAID or REJECTED, and nothing later changes it |
| Arrivals.PollVerdict | apps/factpulse/tasks.py:671-712 | so do the fresh events of an invoice in a poll, whatever else the poll brings |
| Arrivals.DeliverFolds | apps/factpulse/tasks.py:643-727 | every poll moves an invoice, paid for or not, as its own fresh events fold |
| Verdicts.ReorderIff | apps/factpulse/tasks.py:594-599 | all orders of the codes fold to the same status if and only if they do not hold a deposit together with an acceptance or a refusal or, for an invoice paid for, with a rejection; the codes as a set then decide it |
| Arrivals.PollOrderIff | apps/factpulse/tasks.py:643-727 | all orders in which a poll may list its events, on whatever day, leave an invoice in transmission in the same status under that condition on its fresh events, and only then |
| Arrivals.PollsFold | apps/factpulse/tasks.py:630-712 | a series of polls, overlapping or not, folds the codes in the order they first arrive |
| Arrivals.ArrivalFreeIff | apps/factpulse/tasks.py:630-727 | all series of polls that bring the same keys, however split, repeated and ordered, and on whatever days, leave an invoice in transmission in the same status under that condition on the events reaching it, and only then; its codes then decide it |
| Arrivals.PaidForIsDecidedFirst | apps/factpulse/tasks.py:697-760 | over any series of polls an invoice paid for ends PAID if a deposit reaches it before any rejection, even when rejected afterwards, and REJECTED if a rejection comes first |
| Arrivals.EarlyVerdictIsLost | apps/factpulse/tasks.py:675-712 | acceptances and refusals of an unpaid invoice polled before the deposit are lost whatever is polled later, unless under a new key |
| Polling.LoggedEventIsSpent | apps/factpulse/tasks.py:675-676 | an event once logged, applied or not, plays no part in any later poll |
| Arrivals.EarlyAcceptanceIsLost | apps/factpulse/tasks.py:671-712 | the shortest such polls, on any days, at any times and on any log: an acceptance polled before the deposit is lost, polled with it in code order it is applied |
| Store.BillingStore.constructor | apps/billing/models.py:229 | a new database has no rows |
| Store.BillingStore.Create | apps/billing/services/invoice_service.py:28-99 | a draft with the external number in its document and its totals in step, or IntegrityError and no change |
| Store.BillingStore.Update | apps/billing/services/invoice_service.py:131-239 | conflict unless a draft at the version given; else supplier, document and external id replaced where present, the version raised, one log row |
| Store.BillingStore.Replace | apps/billing/services/invoice_service.py:102-128 | conflict unless a draft; else the document rebuilt around the number already held |
| Store.BillingStore.Remove | apps/billing/services/invoice_service.py:241-255 | conflict unless an unnumbered draft; else soft-deleted |
| Store.BillingStore.AssignNumber | apps/billing/services/numbering_service.py:36-47 | the counter of the series moves by one and its padded value follows the prefix |
| Store.BillingStore.Validate | apps/billing/services/invoice_service.py:258-346 | the effect of a validation: conflict, refusal, rollback of invoice and counter together, or number, prepayment and PROCESSING |
| Store.BillingStore.Transmit | apps/billing/services/invoice_service.py:356-377 | conflict unless VALIDATED; else TRANSMITTING |
| Store.BillingStore.Pay | apps/billing/services/invoice_service.py:380-442 | conflict unless payable; else PAID, values given before values recorded before defaults |
| Store.BillingStore.Cancel | apps/billing/services/invoice_service.py:445-493 | conflict unless in a cancellable status; else an unnumbered draft credit note linked to the invoice |
| Store.BillingStore.AutoCancel | apps/billing/services/invoice_service.py:496-529 | the original is cancelled exactly when it is VALIDATED or PAID and the gross totals are present and equal |
| Store.BillingStore.HandleError | apps/factpulse/tasks.py:938-952 | back to DRAFT with its log row |
| Store.BillingStore.Generate | apps/factpulse/tasks.py:71-166 | the effect of a generation, the automatic cancellation and the interruption included |
| Store.BillingStore.Submit | apps/factpulse/tasks.py:182-268 | the flow id stored in TRANSMITTING, or back to VALIDATED |
| Store.BillingStore.MaybeAutoMarkPaid | apps/factpulse/tasks.py:743-760 | a recorded payment is applied when the status allows it |
| Store.BillingStore.ProcessSingleEvent | apps/factpulse/tasks.py:671-727 | duplicates are ignored; others are logged, and applied when the table allows it; it raises exactly when a status change cannot emit its webhook, before any recorded payment is applied |
| Store.BillingStore.Prefetch | apps/factpulse/tasks.py:619-628 | looking up the dictionary filled in one pass finds the invoice the matching rule names |
| Store.BillingStore.PrefetchKeys | apps/factpulse/tasks.py:630-641 | the cache holds exactly the keys of the CDAR_EVENT rows of those invoices |
| Store.FilledLookUp | apps/factpulse/tasks.py:651-653 | seller and number first, then a supplier without SIREN, then the newest row with that number |
| Store.BillingStore.ProcessReport | apps/factpulse/tasks.py:662-666 | the events of a report continue the batch they belong to, up to the one that raises |
| Store.BillingStore.ProcessAnswer | apps/factpulse/tasks.py:609-668 | two nested loops over dictionaries read beforehand have the effect of one fold over the matched events, and return the numbers reported; if the broker is down at an event that moves its invoice, they stop there with that event logged and applied |
| Store.BillingStore.CheckFlows | apps/factpulse/tasks.py:763-814 | the fallback of every stuck invoice not reported, newest first |
| Store.BillingStore.OneFlow | apps/factpulse/tasks.py:774-846 | one acknowledgement: Ok to TRANSMITTED and then paid if recorded, Error to VALIDATED, else nothing |
| Store.BillingStore.PollCdarEvents | apps/factpulse/tasks.py:516-545 | one organization: the answer, then the fallback unless the answer raised |
| Store.BillingStore.PaymentReceived | apps/payments/services.py:578-657 | recorded on a draft or an invoice in processing, applied to a payable one, ignored otherwise |
| Store.BillingStore.TransactionConfirmed | apps/payments/services.py:215-253 | the transaction is confirmed, and its invoice paid if it can be |
| Store.BillingStore.TransactionFailed | apps/payments/services.py:256-265 | the transaction is failed |
| Store.BillingStore.StripeInvoice | apps/payments/services.py:286-330 | skipped when a live invoice has the id, else a draft |
| Store.BillingStore.StripeNote | apps/payments/services.py:333-397 | skipped when known or when its invoice is missing, else a draft linked to it |
| Store.BillingStore.ReceiveWebhook | apps/payments/services.py:159-212 | the event id is kept whatever the handler does; a known id changes nothing and returns false |
| Store.BillingStore.Checkout | apps/payments/services.py:102-156 | conflict unless payable; the open session with a link reused; else a transaction for the gross total |
| Store.BillingStore.Step | apps/billing/services/invoice_service.py:28-529 | any action of the system has the effect its step in the runs states |
| Store.BillingStore.Perform | apps/factpulse/tasks.py:71-846 | a store that performs a list of actions ends as the run of those actions does, so what is proved of runs is true of the store |
| Totals.FillBuckets | apps/billing/services/payload_builder.py:91-113 | the loop yields the net total and, per (rate, category) in order of first use, the sum of its lines and the first exemption texts given |
| Totals.PrintVatLines | apps/billing/services/payload_builder.py:115-127 | one VAT line a bucket, rounded half up, and their sum |
| Totals.ComputeTotals | apps/billing/services/payload_builder.py:84-137 | both loops together compute the totals and VAT lines defined bucket by bucket |
| Totals.KeysOfLines | apps/billing/services/payload_builder.py:99-102 | a bucket exists exactly for the keys some line uses |
| Totals.ByBucket | apps/billing/services/payload_builder.py:99-113 | summing by bucket is summing by line, under any weight of the key |
| Totals.TotalsAddUp | apps/billing/services/payload_builder.py:115-137 | EN 16931-1 section 6.4, BR-CO-10, BR-CO-14, BR-CO-15: taxable amounts sum to the net total, VAT amounts to the VAT total, gross is net plus VAT |
| Totals.VatRoundingBound | apps/billing/services/payload_builder.py:115-127 | BR-CO-17: the VAT total is within half a cent a bucket of the unrounded tax on the lines |
| Totals.OrderIrrelevant | apps/billing/services/payload_builder.py:91-134 | permuting the lines changes no total and no amount of any VAT line |
| Sums.SumPermuted | apps/billing/services/payload_builder.py:91-113 | a sum of exact amounts does not depend on the order of its terms |
| Sums.CentsShiftIff | static/js/invoice-calculator.js:66-73 | adding whole cents commutes with rounding half away from zero unless an exact half changes sign |
| JsTotals.KeyTextInjective | static/js/invoice-calculator.js:35-37 | joining category and rate with an underscore confuses no two buckets |
| JsTotals.FillVatMap | static/js/invoice-calculator.js:28-48 | the loop keyed by that text yields the same buckets and net total |
| JsTotals.CalculateTotals | static/js/invoice-calculator.js:27-76 | the printed VAT lines and totals, VAT summed before rounding, each reason that of the line that opened the bucket |
| JsTotals.FiguresAgree | static/js/invoice-calculator.js:50-64 | on the same lines both ways of rounding give the same net total and, bucket by bucket, the same taxable and VAT amounts |
| Engines.LineReadAlikeIff | apps/billing/services/payload_builder.py:35-51 | an API payload line is read alike by both engines, exemption reason included, if and only if its rate is given, its category is given or its rate positive, and the supplier's default exemption does not apply to it |
| Engines.LinesReadAlikeIff | apps/billing/services/payload_builder.py:26-81 | both engines sum the same lines if and only if every line is read alike |
| Engines.LineKeyAlikeIff | apps/billing/services/payload_builder.py:35-81 | no default moves the line to another bucket under the same condition, except that the exemption may apply to a line of category E |
| Engines.EnginesAgreeOnLines | apps/billing/services/payload_builder.py:84-127 | on lines that no default moves, completed by the enrichment itself, both engines give the same net total and the same buckets with the same taxable and VAT amounts |
| Engines.EnginesAgreeIff | apps/billing/services/payload_builder.py:84-127 | they do so whatever the quantities and prices if and only if no default moves a line |
| Engines.NetTotalsAgree | apps/billing/services/payload_builder.py:45-94 | the net totals agree on all lines, defaulted or not |
| Engines.MissingRateSplits | static/js/invoice-calculator.js:35-37 | a line without rate beside one at 20 is two buckets in the browser and one on the server |
| JsTotals.FiguresClose | static/js/invoice-calculator.js:50-73 | rounding before or after summing k buckets moves the VAT and gross totals by at most (k + 1)/2 cents |
| Engines.EnginesClose | static/js/invoice-calculator.js:50-73 | on lines that no default moves the VAT and gross totals of the engines differ by at most (k + 1)/2 cents for k buckets; with one bucket or none the VAT totals are equal, and the gross totals too short of a sign tie |
| JsTotals.JsGrossAddsUpIff | static/js/invoice-calculator.js:66-73 | the printed gross is the printed net plus the printed VAT if and only if there is no exact half cent of VAT whose sign the net reverses |
| JsTotals.JsGrossAddsUp | static/js/invoice-calculator.js:66-73 | so it always is on non-negative lines |
| JsTotals.JsGrossCanFail | static/js/invoice-calculator.js:66-73 | two lines, one a credit, on which it is not |
| Enrichment.Payload.EnrichLine | apps/billing/services/payload_builder.py:26-51 | absent fields of one line completed, the others and the other lines untouched |
| Enrichment.Payload.ApplyDefaultVatExemption | apps/billing/services/payload_builder.py:56-81 | exactly the 0 % lines without exemption details get category E and the supplier's texts |
| Enrichment.Payload.EnrichLines | apps/billing/services/payload_builder.py:26-53 | all lines completed by position, then stamped |
| Enrichment.Payload.EnrichTotals | apps/billing/services/payload_builder.py:84-137 | totals and VAT lines computed where absent, supplied blocks kept |
| Enrichment.Payload.EnrichDates | apps/billing/services/payload_builder.py:140-147 | invoice date today and due date by the supplier's term, where absent |
| Calendar.ComputeDueDate | apps/billing/services/payload_builder.py:185-200 | the day before the first of the next month is the end of the month, December included |
| Calendar.DueDateIs | apps/billing/services/payload_builder.py:185-200 | the due date is the issue date plus the days of the term, 30 for none or 0, or with end of month the first end of a month not before that day |
| Calendar.OrdinalOrder | apps/billing/services/payload_builder.py:194-199 | counting days orders the dates as the calendar does, leap years included |
| Enrichment.Payload.EnrichReferences | apps/billing/services/payload_builder.py:150-164 | defaults and dates copied where absent |
| Enrichment.Payload.EnrichNotes | apps/billing/services/payload_builder.py:167-182 | the supplier's legal notes where the payload has none |
| Enrichment.Payload.Enrich | apps/billing/services/payload_builder.py:13-23 | the five parts in their order |
| Enrichment.EnrichTwice | apps/billing/services/payload_builder.py:13-182 | a second enrichment, on any later day, changes nothing |
| Enrichment.SuppliedIsKept | apps/billing/services/payload_builder.py:13-182 | every supplied value is kept, save the category of 0 % lines that the default exemption stamps and exemption texts supplied empty |
| Enrichment.ZeroRateIsJustified | apps/billing/services/payload_builder.py:56-125 | BR-E-10: with a default exemption every computed 0 % VAT line has a reason or a code |
| DeepMerge.DeepMergeDicts | apps/billing/services/resolution_service.py:33-41 | the loop over a copy terminates, in any key order, with the merge defined key by key |
| DeepMerge.MergeAt | apps/billing/services/resolution_service.py:33-41 | what any path leads to: the override where it says something, merged where both are objects, the base where it says nothing, nothing of the base below an overriding leaf |
| DeepMerge.OverrideTwice | apps/billing/services/invoice_service.py:186-207 | applying the same override twice is applying it once |
| DeepMerge.CoveredIff | apps/billing/services/resolution_service.py:33-41 | merging leaves the override as it is if and only if it covers every value of the base |
| DeepMerge.AssociativeIff | apps/billing/services/resolution_service.py:33-41 | merging is associative if and only if the middle tree nowhere puts a leaf between two objects of which the last does not cover the first |
| Catchup.RecentIsFilterIff | apps/payments/catchup.py:106-116 | stopping at the first old object equals filtering on the date if and only if no recent object is listed after an old one |
| Catchup.NewestFirstIsEnough | apps/payments/catchup.py:106-116 | so it does on a newest-first listing |
| Catchup.ListRecent | apps/payments/catchup.py:112-116 | the generator consumed to the end |
| Catchup.ImportEach | apps/payments/catchup.py:66-71 | one pass of imports, given up at the first that raises |
| Catchup.CatchUpOrganization | apps/payments/catchup.py:45-79 | invoices oldest first, then credit notes oldest first, unknown ones read before each pass |
| Catchup.CatchUpComplete | apps/payments/catchup.py:64-71 | a run that does not fail leaves no recent finalized invoice unknown and no recent credit note whose invoice is there, those of the same run included, and adds as many rows as it counts |
| Catchup.SecondRunIsNoop | apps/payments/catchup.py:119-128 | an immediate second run on the same listings imports nothing and changes nothing |
| Catchup.ImportedInOrder | apps/payments/catchup.py:64-71 | on newest-first listings the rows a run adds are the invoices it imports oldest first, then the credit notes oldest first |
| Timeline.SortedIsPermutation | apps/ui/timeline.py:277-278 | the sorted rows are those with a timestamp, each as often |
| Timeline.SortIsStable | apps/ui/timeline.py:259-278 | rows that compare equal keep their order, as a reversed stable sort does |
| Timeline.NewestEcho | apps/ui/timeline.py:280-284 | the echo a submitted row keeps is one no other echo of it is newer than |
| Timeline.BuildEntries | apps/ui/timeline.py:279-305 | the dictionary of echoes and the loop yield the entries defined row by row |
| Timeline.EntriesInOrder | apps/ui/timeline.py:286-305 | the entries are the sorted rows without the folded ones, in that order |
| Timeline.EveryRowShown | apps/ui/timeline.py:279-305 | a timestamped row has its own entry if and only if it is not folded, and is inside another's if and only if it is |
| Timeline.ShownOnce | apps/ui/timeline.py:159-170 | only submitted 212 rows absorb a row, one each, and an absorbed CDAR row is in no other entry |
| Timeline.LifecycleSteps | apps/ui/timeline.py:330-369 | nothing for an invoice never sent to a platform; else codes rising strictly, every reached one once, those of the main path too unless it was refused or rejected, each with its state |
| Timeline.StoppedSummary | apps/ui/timeline.py:353-368 | once refused or rejected, nothing is pending and the stop is an error |
| Amounts.FormatEur | apps/ui/templatetags/ui_format.py:16-31 | empty values print a dash; others are rounded to the cent, halves to even, grouped by the loop, and followed by the currency |
| Amounts.PeelGroups | apps/ui/templatetags/ui_format.py:26-29 | the loop that peels groups off the right terminates with the groups of three |
| Amounts.GroupsOfDigits | apps/ui/templatetags/ui_format.py:26-29 | the groups concatenate to the digits, the first has one to three and the others three |
| Amounts.CentsRoundTrip | apps/ui/templatetags/ui_format.py:23-30 | reading back the printed digits gives the same number of cents, for every integer |
| Amounts.EurRoundTrip | apps/ui/templatetags/ui_format.py:16-31 | a printed amount ends in its currency and reads back as the value to the nearest cent, exact halves to the even one |
| Amounts.WholeCentsExact | apps/ui/templatetags/ui_format.py:22 | a whole number of cents is printed as it is |
| ServicePromises.CreatePromise | apps/billing/services/invoice_service.py:28-60 | refused exactly on a number or external id clash; else a draft at version 1 with what was given, its number in its document, and nothing else changed |
| ServicePromises.UpdatePromise | apps/billing/services/invoice_service.py:131-239 | ConflictError exactly unless a draft at the version given; what is given replaces, the rest stays, the version rises by one; refused exactly on a clash |
| ServicePromises.StaleUpdate | apps/billing/services/invoice_service.py:165-173 | the optimistic lock: after an accepted update, one carrying the same version is ConflictError and changes nothing |
| History.OneUpdatePerVersion | apps/billing/services/invoice_service.py:154 | over any run, of the updates of an invoice that carry the same version at most one is accepted |
| ServicePromises.ReplacePromise | apps/billing/services/invoice_service.py:102-128 | supplier and document of a draft replaced, its number kept and put into the new document, the version raised |
| ServicePromises.DeletePromise | apps/billing/services/invoice_service.py:241-255 | exactly the drafts without number are deleted; the row stays, marked |
| ServicePromises.ValidateRefuses | apps/billing/services/invoice_service.py:258-338 | which of status, parties and number refuses a validation, and that nothing, the counter included, changes then |
| ServicePromises.ValidatePromise | apps/billing/services/invoice_service.py:295-346 | an accepted one numbers the draft, writes number and recorded prepayment into its document, moves the counter for a new number only, and logs the change |
| ServicePromises.TransmitPromise | apps/billing/services/invoice_service.py:356-370 | exactly a VALIDATED invoice becomes TRANSMITTING |
| ServicePromises.PayPromise | apps/billing/services/invoice_service.py:380-435 | exactly VALIDATED, TRANSMITTED and ACCEPTED invoices become PAID; which date, reference and amount are kept, today and the gross total as defaults, and that the log names them |
| ServicePromises.CancelPromise | apps/billing/services/invoice_service.py:445-493 | which statuses can be cancelled, and every field of the credit note drafted |
| ServicePromises.AutoCancelPromise | apps/billing/services/invoice_service.py:496-529 | a credit note cancels its original exactly when that is VALIDATED or PAID and the gross totals are present and equal |
| ServicePromises.DeletedRowsAreOut | apps/billing/views.py:121 | a user's action on a missing or deleted row changes nothing |
| TaskPromises.GeneratePromise | apps/factpulse/tasks.py:71-166 | every outcome of a generation: rows and log of a failure, a success, a cancelling credit note, and an interruption of each |
| TaskPromises.SubmitPromise | apps/factpulse/tasks.py:182-268 | only a TRANSMITTING invoice is submitted; it keeps its status and the flow id, or goes back to VALIDATED |
| TaskPromises.EventPromise | apps/factpulse/tasks.py:671-760 | what a fresh event of each code makes of an invoice in each status, a recorded payment applied on deposit and acceptance, and what is logged |
| TaskPromises.BrokenEventPromise | apps/factpulse/tasks.py:697-725 | the same with the broker down: logged and moved, no payment applied |
| TaskPromises.FlowPromise | apps/factpulse/tasks.py:774-846 | Ok makes a submitted invoice still in transmission TRANSMITTED, and PAID if paid for; Error VALIDATED; no answer changes it, and no other invoice is looked at |
| PollPromises.MatchPromise | apps/factpulse/tasks.py:619-653 | a report reaches a live row of the polled organization with its number, and none only if there is none: the seller's SIREN first, then a supplier without SIREN, then the newest |
| PollPromises.ReportPromise | apps/factpulse/tasks.py:643-666 | all events of a report, in order, go to the row it reaches |
| PollPromises.ReachedRows | apps/factpulse/tasks.py:619-660 | events reach only live rows of the organization whose number some report names |
| PollPromises.SeenPromise | apps/factpulse/tasks.py:630-641 | an event is a duplicate exactly when the log has its invoice, code and time |
| PollPromises.OtherOrganizations | apps/factpulse/tasks.py:609-814 | a poll of one organization leaves every invoice of the others and its history as they were |
| PollPromises.UnreportedPromise | apps/factpulse/tasks.py:763-846 | over a whole poll an invoice no report names becomes what the platform answers for its flow if it awaits an answer, and else stays, history included |
| PollPromises.ReportedRowPromise | apps/factpulse/tasks.py:774-776 | an invoice some report names is not touched by the fallback |
| PollPromises.InterruptedPromise | apps/factpulse/tasks.py:697-725 | a poll is cut short exactly when the event at which the broker is down is fresh and moves its invoice |
| PaymentPromises.CheckoutPromise | apps/payments/services.py:102-156 | which invoices can be checked out, which open session is reused, and the transaction added |
| PaymentPromises.ConfirmedPromise | apps/payments/services.py:215-253 | the first transaction with the payment id is confirmed, and its payable invoice PAID today under the payment's reference for the transaction's amount; any other invoice stays |
| PaymentPromises.FailedPromise | apps/payments/services.py:256-265 | the transaction is failed and no invoice changes |
| PaymentPromises.UnknownPayment | apps/payments/services.py:222-228 | without a transaction nothing changes |
| PaymentPromises.ConfirmedByWebhook | apps/payments/services.py:199-247 | delivered as a new webhook event, a confirmed payment pays its payable invoice |
| PaymentPromises.StripePaidPromise | apps/payments/services.py:578-657 | the newest live invoice with the Stripe id records the payment if not emitted, is PAID with it if payable, and else stays |
| PaymentPromises.ImportPromise | apps/payments/services.py:286-317 | skipped exactly when a live row of the organization has the Stripe id, else a creation with that id |
| PaymentPromises.ImportNoteSkips | apps/payments/services.py:345-376 | exactly when an imported credit note is skipped |
| PaymentPromises.ImportNotePromise | apps/payments/services.py:378-385 | the row added is linked to the newest live invoice it credits |
| PaymentPromises.WebhookPromise | apps/payments/services.py:173-212 | a new event is recorded and handed to the handler of its kind; a known one changes nothing |
| EnrichmentPromises.LinePromise | apps/billing/services/payload_builder.py:26-81 | what each absent field of a line becomes: number, unit, price, the product's rate or 20, net amount, category by rate, the supplier's exemption |
| EnrichmentPromises.SummedLines | apps/billing/services/payload_builder.py:91-98 | the totals are computed from the enriched lines as they stand |
| EnrichmentPromises.BlocksPromise | apps/billing/services/payload_builder.py:84-134 | absent totals and absent VAT lines are computed, each for itself |
| EnrichmentPromises.DatesPromise | apps/billing/services/payload_builder.py:140-147 | dated today and due by the supplier's term, or 30 days later without supplier |
| EnrichmentPromises.ReferencesPromise | apps/billing/services/payload_builder.py:150-164 | each default of the references, and the dates copied |
| EnrichmentPromises.NotesPromise | apps/billing/services/payload_builder.py:167-182 | the supplier's non-empty notes under their codes, in order, and none otherwise |
| Numbers.PrintIs | apps/billing/services/numbering_service.py:45 | the prefix, then digits that read as the counter, padded to the width and no further |
| Sums.HalfUpIs | apps/billing/services/payload_builder.py:49-51 | rounding goes to the nearest, exact halves away from zero |
| Rates.PercentReads | apps/billing/services/payload_builder.py:116-118 | a rate reads as its digits without the point over the power of ten of those after it |
| Totals.FirstGivenIs | apps/billing/services/payload_builder.py:107-113 | the text of a bucket is that of its first line that gives one |
| Totals.VatLinePromise | apps/billing/services/payload_builder.py:115-127 | key, base, tax to the nearest cent, reason and code of each VAT line |
| JsTotals.OpeningReasonIs | static/js/invoice-calculator.js:39-46 | the reason of a bucket is that of the line that opens it |
| Calendar.MonthTable | apps/billing/services/payload_builder.py:194-199 | the days before each month of a common and of a leap year |
| Catchup.UnknownPromise | apps/payments/catchup.py:119-128 | attempted are the listed documents whose id no row of the organization has, deleted or not |
| Catchup.FinalizedPromise | apps/payments/catchup.py:57-61 | only open, paid and uncollectible invoices are attempted |
| Timeline.OrderPromise | apps/ui/timeline.py:259-278 | newest second first; within it other rows before statuses, statuses by falling code |
| Timeline.EchoPromise | apps/ui/timeline.py:151-170 | which polled events echo a submission, and which one |
| Timeline.SubmissionPromise | apps/ui/timeline.py:279 | the submissions are the rows that record one |
| Timeline.FoldPromise | apps/ui/timeline.py:280-288 | a row is folded away exactly when it is the first in order to echo its submission |
| Timeline.ReachedPromise | apps/ui/timeline.py:337-349 | the codes received, and 212 once submitted |
| Timeline.StatePromise | apps/ui/timeline.py:357-368 | done, warning, error or pending, for each code shown |
| Timeline.ShownPromise | apps/ui/timeline.py:353-357 | which codes are shown |

## Left out

- What the form of the user interface posts: it fills in a rate and a category, and sends its own totals.
- Years after 9999, which `date` refuses, and dates that are not in ISO form.
- Remote clients, PDF rendering, file storage, e-mail and webhook delivery: a remote call is a success or a failure.
- Views, serializers, permissions, middleware, signatures and the tool interfaces.
- The e-reporting tasks, `detect_flow` and the notes and frameworks it injects: they never write `status` or `number`.
- The fields `pdf_file`, `facturx_status`, `factpulse_error`, `detected_flow` and `ereporting_status`, so that `generate_source_pdf` is no step.
- `backfill_stripe_numbers`: a manual repair that rewrites the numbers of drafts.
- Rendering of prefix templates: the rendered prefix and the padding are arguments of each validation.
- Party and product resolution: updates take the merged and enriched snapshot as an argument; `deep_merge` and the enrichment are modelled by themselves.
- Lookups of the user interface, which do not exclude deleted rows.
- Interleaving inside a step: a task that loads an invoice before a remote call and saves it afterwards is one atomic step.
- A database that fails between a saved status and its log row, and exceptions in the receivers of `invoice_failed`.
- Binary floating point in JavaScript, the 28-digit decimal context, and numeric text that does not parse; rates carry no sign.
- Payment texts and amounts travel as they are; the conversion of floats to decimals is exact here.
- Numbers longer than the column, and suppliers or SIRENs edited during a run.
- Titles and detail rows of history entries; the statuses of CDAR codes written with leading zeros; amounts of more digits than the decimal context holds.
- The handlers of the connected application and the start date of an account: the threshold of a catch-up is an argument.
- Catchup.CatchUpComplete: assumes no listed credit note credits a document that has the id of a listed credit note, as invoice and credit note ids are distinct at Stripe.
- Catchup.SecondRunIsNoop: the same assumption, and a first run that did not fail; a failed run gives up and imports are retried by the next one.
- Numbering.PrintedDistinct: promises nothing for an invoice handed to another supplier between two prefixes that continue each other; `CollisionReachableIff` shows that the promise then fails.
- Clashes.SeriesStopped: fixes the padding of the series, as another padding prints another number.
- Store.BillingStore.Update: leaves out the customer, the internal flag and the reset of the stored PDF.
- Store.BillingStore.Replace: leaves out the customer and the reset of the stored PDF.
- Store.BillingStore.Validate: leaves out the issue date added to a document without one, and the flow, notes, framework and recipient country written into it.
- Store.BillingStore.Cancel: leaves out the date of the preceding invoice in the reference.
- Store.BillingStore.HandleError: leaves out the stored error details.
- Store.BillingStore.Generate: leaves out the stored PDF, the Factur-X status and the launch of e-reporting.
- Store.BillingStore.TransactionConfirmed: leaves out the payment method of the transaction.
- Store.BillingStore.ReceiveWebhook: leaves out the `processed` and `error` fields of the event log and the exception re-raised to the sender.
- Amounts.FormatEur: takes a number, or nothing for empty and unreadable text; parsing that text is not modelled.
