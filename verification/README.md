# Exact money and its protocols, verified

This project models the parts of the application that move exact money or make promises about it, and
proves what they promise. Each source file is one or more modules: a specification in functions, the
source's loops and objects as methods and classes proved against it, and lemmas about the specification.

- `Prelude`, `Sorting`, `Decimals`: options, sums, the stable sort, decimal numerals.
- `Allocation`: penny allocation by largest remainder.
- `Csv`, `Billing`, `BillingCsv`, `BillingRoundTrip`, `BillingColumns`: the spreadsheet-safe table format, the billing facts written
  in it, and what every heading holds.
- `ReceiptAllocation`, `BillingLedger`, `BillingDerivation`, `BillingOrder`, `BillingConservation`, `BillingSettlement`: one invoice's
  ledger derived from an unordered pile of facts, with shared reversal balances. `BillingCredits`, `BillingPostings`, `BillingSpread`
  and `BillingGuards` say what a settled ledger is in terms of its facts alone: what is credited, posted and held, how every receipt
  is spread, and what the derivation refuses. `BillingExamples`: facts on which the exact conditions fail.
- `Accounting`, `AccountingSteps`, `AccountingProofs`, `AccountingSandbox`: the approve, push, reconcile and route protocol over
  transports that may lose their answers. `AccountingApprovals`: what each operation needs and does, and that nothing is recorded or
  delivered without a standing approval. `AccountingExamples`: a run that meets the one limit of its allocation cap.
- `Mandate`, `MandateRuns`, `MandateOutcomes`: the collection and refund reducer, its safety over runs, and its state as its own
  record tells it.
- `Cis`, `CisProofs`, `CisAcceptance`: cumulative statements with reversals, what a reconciled book says, and which books reconcile.
- `CaptureText`, `CaptureParser`, `CaptureReading`, `CaptureEvaluation`, `CaptureGrounding`, `CaptureProofs`: the fixture parser, what
  it reads out of a text, its independent checker, what that demands of a proposal, and that the two agree.
- `Merchant`, `MerchantReading`: the merchant text extractor, its citations, and the documents on which it notes nothing.
- `EmailStore`, `EmailReceipts`: the first-writer-wins receipt store, what its receipts say and whose text it releases.
- `Notices`: the deadline search.
- `Integrity`, `IntegrityFindings`, `IntegrityPublished`, `IntegrityResults`: the advisory evaluator and the facts behind each of its
  nine kinds of findings.

Exact fractions are reals. Digests, orders of names, clocks, text rules and character classes are function parameters; what a
theorem needs of one is a `requires` of that theorem (an injective digest, a total order, base64 that decodes what it encodes).
Automatic induction is switched off (`{:induction false}`) wherever the verifier would try it: every proof is written out.

Where the code differs from what one would like to promise, the code is modelled and the exact condition proved:

- A rendered billing batch is not always parsed back: a NUL in a remittance reference, two facts with one identity, or too many
  bytes make the parser refuse. `BillingRoundTrip` states exactly when; `NulNotReadBack` and `SharedIdentityNotReadBack` are such batches.
- Whether a billing derivation is refused never depends on arrival order, but the kind of refusal can. It is fixed exactly when every
  fact is readable or no two readable facts contradict each other (`AnswerFixedExactly`); `RefusalKindDependsOnArrival` is a pile of
  three payments where it is not.
- Entries against an invoice are limited by the invoice's amount at the time of each push. They fit its current amount throughout a
  run exactly when no fixture change takes the amount below what is already reserved (`AlwaysFitsExactly`); `LoweredInvoice` is a run
  with such a change, and `InvoiceNeverOverAllocated` bounds them by the largest amount the invoice has had in any case.
- A statement can be appended to a reconciled book only without payment records, because the book being extended has already
  taken all of them (`AppendKeepsHistory`).

## Model

| member | source | states |
|---|---|---|
| Allocation.LeftoverFits | packages/core/src/allocation.ts:21-27 | the pennies left after division are never more than the rows with a positive remainder |
| Allocation.SharesSumToTotal | packages/core/src/allocation.ts:5-29 | the shares of an accepted request sum exactly to the total |
| Allocation.ShareNearProportion | packages/core/src/allocation.ts:16-28 | every share has the total's sign and is less than a penny from its exact proportion; zero weight gets zero |
| Allocation.LargerWeightNoSmaller | packages/core/src/allocation.ts:22-27 | a strictly larger weight never gets a smaller absolute share |
| Allocation.LargestRemaindersFirst | packages/core/src/allocation.ts:21-27 | leftover pennies go to the largest remainders: whoever got a penny above its proportion had left over no less than anyone who got none, and ties follow the collation of the ids |
| Allocation.RefusalsExactly | packages/core/src/allocation.ts:6-14 | an allocation is refused exactly when money has no target, a target is repeated or weighs less than nothing, or nothing has any weight |
| Allocation.NegationNegates | packages/core/src/allocation.ts:15-28 | negating the total negates every share |
| Allocation.ListingOrderIrrelevant | packages/core/src/allocation.ts:17-28 | a recipient's share does not depend on where it is listed |
| Allocation.AllocateMoney | packages/core/src/allocation.ts:5-29 | the whole allocation: its shares are the specified ones, and it refuses exactly the malformed requests |
| Allocation.DealPennies | packages/core/src/allocation.ts:23-27 | the dealing loop gives one penny to each of the first leftover rows and nothing to the others |
| Csv.ReadCsv | packages/core/src/contractor-billing.ts:221-243 | the character loop with its cell, quote and close flags is the reading machine Read |
| Csv.TableRoundTrip | packages/core/src/contractor-billing.ts:151-159 | reading a written table gives the header and every cell back, whatever quotes, commas, line ends or formula starts it holds |
| Csv.CellWritten | packages/core/src/contractor-billing.ts:151-156 | a cell is written in quotes with its quotes doubled, after an apostrophe exactly if the text starts with one of five characters, and what stands first inside the quotes never starts a formula |
| Csv.ContentRead | packages/core/src/contractor-billing.ts:227-239 | a quoted cell is read as its content, less an apostrophe exactly if one of the five characters follows it |
| Csv.TableNul | packages/core/src/contractor-billing.ts:225 | a written table holds a NUL exactly when one of its cells does |
| Csv.CellRead | packages/core/src/contractor-billing.ts:227-239 | from the start of a cell, the reader takes one written cell and ends with exactly its text |
| Decimals.DecimalRoundTrip | packages/core/src/contractor-billing.ts:248 | reading the decimal text of a natural number gives the number |
| Billing.NormalizeTwice | packages/core/src/contractor-billing.ts:133-145 | normalising is idempotent and its result is valid again |
| BillingCsv.RenderBillingCsv | packages/core/src/contractor-billing.ts:203-220 | the writing loops produce exactly the specified rows, or refuse |
| BillingRoundTrip.RenderedSafely | packages/core/src/contractor-billing.ts:157-220 | a rendered batch is the header and safely written cells: opened in a spreadsheet, none of them is a formula |
| BillingColumns.RenderedColumns | packages/core/src/contractor-billing.ts:198-220 | every fact in turn gives one row for each of its lines, or one without a line, and each of the 32 headings holds the part of the fact or line it names |
| BillingCsv.ParseBillingCsv | packages/core/src/contractor-billing.ts:244-280 | the parsing method computes Parse: header, rows, regrouping and normalisation |
| BillingCsv.RegroupRows | packages/core/src/contractor-billing.ts:247-277 | the row loop files rows under their facts in order of first appearance, or refuses |
| BillingRoundTrip.BillingRoundTrip | packages/core/src/contractor-billing.ts:203-280 | parsing a rendered batch gives exactly its normalised facts in order if the bytes are within the limit, no free text carries a NUL and no two facts share source and event id; otherwise it refuses |
| BillingExamples.NulNotReadBack | packages/core/src/contractor-billing.ts:221-225 | a payment whose remittance reference is a NUL is rendered, and the text is refused |
| BillingExamples.SharedIdentityNotReadBack | packages/core/src/contractor-billing.ts:262-277 | two payments with one identity are rendered, and the text is refused |
| ReceiptAllocation.AllocationSound | packages/core/src/receipt-allocation.ts:93-123 | parts are for different eligible lines, within what is outstanding, in the line's net ratio, and sum to the receipt with the direction's sign |
| ReceiptAllocation.ProRataTotal | packages/core/src/receipt-allocation.ts:115-121 | without explicit shares an acceptable receipt is allocated exactly when the eligible lines can take it |
| ReceiptAllocation.ProRataSpread | packages/core/src/receipt-allocation.ts:115-121 | without explicit shares every line gets its part in proportion to the balances of the lines that can take a receipt |
| ReceiptAllocation.ExplicitSpread | packages/core/src/receipt-allocation.ts:109-114 | explicit shares are followed to the letter, and other lines get nothing |
| ReceiptAllocation.ExplicitExactly | packages/core/src/receipt-allocation.ts:109-114 | explicit shares are accepted exactly if each names another line that can take it and they add up to the receipt |
| BillingDerivation.DedupeFacts | packages/core/src/contractor-billing.ts:342-348 | the loop over raw facts is Dedupe |
| BillingDerivation.GroupMovements | packages/core/src/contractor-billing.ts:360-372 | the loop over pending facts is the separation into held, other and grouped movements |
| BillingDerivation.CreditLines | packages/core/src/contractor-billing.ts:387-403 | the adjustment loop is ApplyDetails, with every limit checked after each adjustment; BillingCredits says what it books |
| BillingDerivation.ShareBalance | packages/core/src/contractor-billing.ts:431-432 | every observation id of a movement is given the one balance object |
| BillingDerivation.ReverseReceipt | packages/core/src/contractor-billing.ts:406-429 | a reversal changes the shared balance in place by exactly what it allocated |
| BillingDerivation.Replay | packages/core/src/contractor-billing.ts:385-434 | the replay loop over shared balances is the specified fold Run over accounts |
| BillingDerivation.DeriveUnambiguousBilling | packages/core/src/contractor-billing.ts:340-443 | the whole imperative derivation is Derive, whose ledgers DeriveConserved describes in terms of their facts |
| BillingOrder.ArrivalIrrelevant | packages/core/src/contractor-billing.ts:340-443 | two piles with the same readings, in any order and with any repetition, are refused together or give the same ledger; with only readable or only coherent facts even the error is the same |
| BillingOrder.AnswerFixedExactly | packages/core/src/contractor-billing.ts:340-348 | the whole answer, kind of refusal included, is the same in every order if and only if every fact is readable or no two readable facts contradict each other |
| BillingExamples.RefusalKindDependsOnArrival | packages/core/src/contractor-billing.ts:343-347 | three concrete payments, one unreadable and two contradictory, that are refused as unreadable in one order and as a conflict in another |
| BillingOrder.SettlePermuted | packages/core/src/contractor-billing.ts:350-443 | settling does not depend on the order of the pending facts, the held list included |
| BillingOrder.DedupeMeaning | packages/core/src/contractor-billing.ts:342-348 | deduplication succeeds exactly when facts are readable and coherent, and keeps each fact once |
| BillingOrder.ObserveAllMeaning | packages/core/src/contractor-billing.ts:361-372 | grouping succeeds exactly when observations of one movement agree, and collects each movement's observation ids |
| BillingConservation.SettledConserved | packages/core/src/contractor-billing.ts:381-442 | totals are line sums, paid gross is the sum of listed allocations by line and over all, paid net keeps the line's ratio, matched net is the paid net of matched lines, credits stay within the line |
| BillingConservation.RunConserved | packages/core/src/contractor-billing.ts:385-434 | every run keeps the books conserved, only appends postings, and each posting is for one of its facts |
| BillingConservation.StepConserved | packages/core/src/contractor-billing.ts:386-433 | one fact keeps the books conserved and posts its whole amount |
| BillingConservation.RunShares | packages/core/src/contractor-billing.ts:423-433 | after any run all observation ids of a movement reach one account, whose balance in gross, net and matched amounts is the receipt plus every reversal so far, line by line |
| BillingSettlement.SettledShares | packages/core/src/contractor-billing.ts:360-434 | the same of every settled invoice with distinct event ids, in terms of its facts: each observation of a received movement reaches that movement's one balance |
| BillingCredits.SettledCredits | packages/core/src/contractor-billing.ts:387-403 | in a settled ledger the net and gross credited on every line are the sums of its adjustments over the pending credits that name the invoice, the totals follow, and a line is rejected exactly if such a rejection lists it |
| BillingPostings.SettledPostings | packages/core/src/contractor-billing.ts:360-434 | every identified receipt and every reversal of an earlier receipt is posted once, whole and under its movement, and every other fact is held exactly for its reason |
| BillingSpread.SettledSpread | packages/core/src/contractor-billing.ts:405-433 | every receipt is spread over what is open on the lines by then, billed less credits and earlier postings, and every reversal over what is left of its receipt |
| BillingGuards.InstantsExactly | packages/core/src/contractor-billing.ts:373-380 | the order is settled exactly if every replayed fact is later than the invoice and at an instant of its own or of its movement |
| BillingGuards.SettledLawfully | packages/core/src/contractor-billing.ts:361-402 | only facts with one invoice composition, instants apart, agreeing observations and adjustments of existing lines are settled |
| BillingGuards.SettleRefuses | packages/core/src/contractor-billing.ts:369-379 | observations that disagree are refused as a conflict, and instants that are not apart as undecided |
| BillingSettlement.DeriveConserved | packages/core/src/contractor-billing.ts:340-443 | from raw facts: every derived ledger settles nothing, or one invoice among the kept readings; then it is conserved, every line is credited and rejected as the facts say, every receipt and reversal is posted whole and spread over what is open, every other fact is held for its reason, and the facts were settleable |
| BillingSettlement.DedupeKeeps | packages/core/src/contractor-billing.ts:342-348 | whatever the digest, deduplication keeps readings of the raw facts, one for each identity, and no identity is lost |
| BillingConservation.ObserversApart | packages/core/src/contractor-billing.ts:363-372 | no observation id belongs to two movements |
| AccountingSandbox.FakeAccountingTransport.Send | apps/api/src/accounting-export.fake.ts:23-36 | an unconnected delivery or one for another company is refused without effect; any other counts, resets the mode, and adds the one object exactly on success or a lost answer |
| AccountingSandbox.FakeAccountingTransport.Lookup | apps/api/src/accounting-export.fake.ts:37-41 | refused without a connection; otherwise the objects of one tenant, company and reference, in order |
| AccountingSandbox.AccountingExportSandbox.PreviewExport | apps/api/src/accounting-export.sandbox.ts:104-145 | the preview is Preview: the first failing check decides the refusal |
| AccountingSandbox.AccountingExportSandbox.FamilyTaken | apps/api/src/accounting-export.sandbox.ts:115-124 | the loop over artifacts finds exactly whether the family is bound elsewhere |
| AccountingSandbox.AccountingExportSandbox.Allocated | apps/api/src/accounting-export.sandbox.ts:129-131 | the filter and sum over entries is what others reserve |
| AccountingSandbox.AccountingExportSandbox.Confirm | apps/api/src/accounting-export.sandbox.ts:146-156 | the whole new state of a confirmation, and its answer |
| AccountingSandbox.AccountingExportSandbox.Revoke | apps/api/src/accounting-export.sandbox.ts:157-164 | the whole new state of a revocation, and its answer |
| AccountingSandbox.AccountingExportSandbox.PushCommand | apps/api/src/accounting-export.sandbox.ts:165-212 | the whole new state of a push, transports and shelves included, and its answer; PushRefusalExactly says when it is refused |
| AccountingSandbox.AccountingExportSandbox.ReconcileEntry | apps/api/src/accounting-export.sandbox.ts:213-233 | the whole new state of a reconciliation, and its answer |
| AccountingSandbox.AccountingExportSandbox.PreviewRouteChange | apps/api/src/accounting-export.sandbox.ts:63-86 | the route preview compares every entry of the job on both routes |
| AccountingSandbox.AccountingExportSandbox.ConfirmRouteChange | apps/api/src/accounting-export.sandbox.ts:87-98 | the whole new state of a confirmed route change, and its refusal |
| AccountingSandbox.NewSandbox | apps/api/src/accounting-export.sandbox.ts:32-40 | a sandbox is refused exactly when two transports claim a route, and otherwise starts empty with its fixtures filed |
| AccountingSteps.PushPushes | apps/api/src/accounting-export.sandbox.ts:165-212 | a push that changes anything passed its preview, recorded its entry and artifact first, and then delivered |
| AccountingSteps.DeliverDelivers | apps/api/src/accounting-export.sandbox.ts:190-211 | a delivery changes one entry only, leaves a pushed entry alone, and stores an object only where none was found |
| AccountingSteps.ConfirmRouteSwitches | apps/api/src/accounting-export.sandbox.ts:72-97 | a confirmed change moves one key after both routes showed every entry's own unedited object |
| AccountingApprovals.PreviewExactly | apps/api/src/accounting-export.sandbox.ts:104-145 | a preview shows an artifact exactly if the caller, the company, the fixture, the mapping, the invoice it links and its family admit it, and its target carries the pence, kind, revision, invoice link, account and customer in their own fields |
| AccountingApprovals.ConfirmExactly | apps/api/src/accounting-export.sandbox.ts:146-156 | a decision is confirmed exactly if it is the caller's own, valid, for this action and this digest, and not spent |
| AccountingApprovals.PushRefusalExactly | apps/api/src/accounting-export.sandbox.ts:165-178 | a previewed push is admitted exactly if its decision is the caller's own, for pushing this digest, unexpired and confirmed on record, and the identity and entry agree |
| AccountingApprovals.RecordMeans | apps/api/src/accounting-export.sandbox.ts:146-164 | what is on record of a decision during a run is exactly whether its last confirmation, in the run or before it, was not revoked since |
| AccountingApprovals.RevokedForGood | apps/api/src/accounting-export.sandbox.ts:146-164 | a revoked decision is never confirmed again |
| AccountingApprovals.ApprovedOnly | apps/api/src/accounting-export.sandbox.ts:165-212 | over every run, an entry appears, its attempts grow or a shelf gains an object only by a push under the caller's own unexpired decision on the digest of the recorded artifact, confirmed earlier and not revoked since |
| AccountingApprovals.RevokedPushRefused | apps/api/src/accounting-export.sandbox.ts:157-171 | after a revocation a push under that decision leaves the state as it was, wherever in the run it comes |
| AccountingApprovals.CreateMeans | apps/api/src/accounting-export.sandbox.ts:190-211 | what each outcome of a delivery makes of the entry and the shelf: accepted, rate limited, refused or lost |
| AccountingApprovals.ReconcileMeans | apps/api/src/accounting-export.sandbox.ts:213-233 | a reconciliation finds the one unedited object, an edited or foreign one, several or none, and changes the entry accordingly |
| AccountingApprovals.RouteApprovedExactly | apps/api/src/accounting-export.sandbox.ts:72-98 | a route changes exactly under the caller's own unspent decision on the digest of the shown artifact |
| AccountingApprovals.SwitchedOnly | apps/api/src/accounting-export.sandbox.ts:72-98 | over every run, a route differs only after a confirmed change of it to that route, under a decision not known before |
| AccountingProofs.RunGrowsOnce | apps/api/src/accounting-export.sandbox.ts:196-201 | over every run without outside changes shelves only grow, and no tenant, company and reference gets a second object on a shelf |
| AccountingProofs.RunHistory | apps/api/src/accounting-export.sandbox.ts:179-233 | over every run, outside changes included, an entry keeps its record and external id, is never sent again once it has one, and artifacts never change |
| AccountingProofs.NeverTwoObjects | apps/api/src/accounting-export.sandbox.ts:165-233 | from empty shelves, across lost answers, retries and route changes, all shelves together never hold two objects for one source |
| AccountingProofs.CreatedOnceAcrossRoutes | apps/api/src/accounting-export.sandbox.ts:63-98 | the invariant behind it: an entry's only object is always on its current route |
| AccountingProofs.InvoiceNeverOverAllocated | apps/api/src/accounting-export.sandbox.ts:125-133 | in any order and with any outcome, entries against an invoice never total more than the largest amount the invoice has had |
| AccountingProofs.AlwaysFitsExactly | apps/api/src/accounting-export.sandbox.ts:125-133 | over a run the reserve fits the invoice's current amount in every state if and only if no fixture change takes the amount below the reserve |
| AccountingProofs.UntouchedInvoiceFits | apps/api/src/accounting-export.sandbox.ts:125-133 | while an invoice's fixture is left alone, entries against it never total more than it, in any order and with any outcome |
| AccountingExamples.LoweredInvoice | apps/api/src/accounting-export.sandbox.ts:44-47 | a credit of 60 exported against an invoice of 100 no longer fits once the fixture is lowered to 50 |
| AccountingProofs.FamiliesStayBound | apps/api/src/accounting-export.sandbox.ts:115-124 | all artifacts of one invoice family share one company and one customer, over every run |
| AccountingProofs.SwitchKeepsHistory | apps/api/src/accounting-export.sandbox.ts:63-98 | after a confirmed switch and any later inside run, reconciling an entry of the job gives pushed with the same external id and record |
| AccountingProofs.RunAnchored | apps/api/src/accounting-export.sandbox.ts:213-233 | an entry whose route shows exactly its object stays that way, with its external id, over every inside run |
| Mandate.ApplyContractorMandateReference | packages/core/src/contractor-mandate.ts:69-99 | the imperative reducer, schema checks included, is Reduce; RecordTells and AcceptedExactly say what that comes to |
| Mandate.CheckRequest | packages/core/src/contractor-mandate.ts:101-119 | the request checks, with their searches and sums |
| Mandate.StaysOk | packages/core/src/contractor-mandate.ts:97-98 | after an accepted event only a list limit can make the final schema check fail |
| MandateRuns.MoneySafety | packages/core/src/contractor-mandate.ts:69-121 | in every reachable state collections total at most the limit, refunds of a settled collection at most that collection, and settled collections less settled refunds lie between zero and the limit |
| MandateRuns.AlwaysSafe | packages/core/src/contractor-mandate.ts:101-121 | the safety invariant holds after every run: collections and refunds bounded, decisions and ids used once, one collection a statement |
| MandateRuns.SafeNet | packages/core/src/contractor-mandate.ts:108-119 | safety bounds the net amount from both sides |
| MandateRuns.RefundsGrouped | packages/core/src/contractor-mandate.ts:113-118 | grouping refunds by their original counts each refund once |
| MandateRuns.RunHistory | packages/core/src/contractor-mandate.ts:79-96 | settled actions never change, attempts only grow up to three, and an ended agreement requests and starts no collection |
| MandateOutcomes.RecordTells | packages/core/src/contractor-mandate.ts:79-97 | in every reachable state an action is queued before any start, in flight if its last event is a start and otherwise exactly what its last report or reconciliation said; its attempts are its recorded starts, its terms those requested, and the agreement has the status named by the last event that ended it |
| MandateOutcomes.AcceptedExactly | packages/core/src/contractor-mandate.ts:69-119 | in every reachable state an input is accepted exactly if it repeats a recorded one, or is new, lawful by the record alone and has room |
| MandateRuns.RedeliveryAnywhere | packages/core/src/contractor-mandate.ts:73-78 | an accepted event delivered again anywhere later leaves the final state as it was |
| Cis.ReconcileCisFixtures | packages/core/src/cis-deductions.ts:97-180 | the whole imperative reconciliation is Reconcile |
| Cis.TakeAll | packages/core/src/cis-deductions.ts:104-175 | the statement loop with its accumulators is the fold TakeStatements |
| Cis.Pay | packages/core/src/cis-deductions.ts:141-157 | the payment loop over used, reversed and cash is TakePayments |
| Cis.CheckSources | packages/core/src/cis-deductions.ts:62-87 | the source checks in their order |
| Cis.AppendCisFixtureStatement | packages/core/src/cis-deductions.ts:183-194 | appending is Append |
| CisProofs.LedgerSound | packages/core/src/cis-deductions.ts:111-175 | every row: the deduction is 0, 20 or 30 hundredths of its base by status, to the nearest penny, owing and overpaid account for the difference, deltas telescope to the cumulative figures, and cash is the signed sum of the payments so far and never negative |
| CisProofs.DeductionRight | packages/core/src/cis-deductions.ts:10 | the deduction is within half a penny of 0, 20 or 30 hundredths of its base for the three statuses |
| CisAcceptance.ReconciledExactly | packages/core/src/cis-deductions.ts:62-180 | a book reconciles exactly if its VAT and retention do and its identities, verifications, limits, statements and payments are in order, each stated on the records |
| CisProofs.EveryPaymentOnce | packages/core/src/cis-deductions.ts:141-176 | the payment records of a reconciled book are exactly those its statements take, each once |
| CisProofs.ReversalsBounded | packages/core/src/cis-deductions.ts:147-154 | over the whole book an original is never reversed by more than it paid |
| CisProofs.TakenTallies | packages/core/src/cis-deductions.ts:141-157 | taking a payment keeps cash equal to originals less reversals and to what is left of the originals |
| CisProofs.HalfUpKeepsOrder | packages/core/src/rational.ts:25-34 | half-up division keeps the order of nonnegative amounts |
| CisProofs.AppendKeepsHistory | packages/core/src/cis-deductions.ts:183-194 | an accepted append leaves every earlier row as it was and can bring no payment records |
| CisProofs.AppendAgain | packages/core/src/cis-deductions.ts:187-191 | appending the same statement again gives the book back |
| CaptureParser.ParseCaptureFixture | packages/ai/src/capture-fixture-parser.ts:41-128 | the parser with its running offsets and pushed questions is Parse |
| CaptureParser.CutCells | packages/ai/src/capture-fixture-parser.ts:12-20 | the running offset gives every cell's place in the source |
| CaptureReading.ParsedAsRead | packages/ai/src/capture-fixture-parser.ts:41-128 | the proposal of an accepted text is read from it completely: its lines, items and titles, every trimmed cell at its place, every field stated once or by default, the title and all questions |
| CaptureReading.ParsedExactly | packages/ai/src/capture-fixture-parser.ts:41-75 | a text is accepted exactly within the size, with something visible, not too many items, each described, and a title within its length |
| CaptureReading.QuantityExactly | packages/ai/src/capture-fixture-parser.ts:12-40 | a text is a quantity exactly if it is a positive decimal of at most nine and six digits without superfluous zeros |
| CaptureReading.PoundsExactly | packages/ai/src/capture-fixture-parser.ts:12-40 | a text is a rate exactly if it is a pound literal with at most two decimals within the limit, and its pence are that amount |
| CaptureProofs.ParserMeetsChecker | packages/ai/src/capture-fixture-parser.ts:41-128 | every accepted source gives a proposal that is grounded in it and cites it for every line |
| CaptureProofs.RatesAgree | packages/ai/src/capture-evaluation.ts:30-37 | the parser's rates are exactly the checker's, less those with superfluous leading zeros |
| CaptureProofs.EvaluateParsed | packages/ai/src/capture-evaluation.ts:46-142 | parsing and then evaluating: all citations valid, no unsupported money and no grounding error, whatever the label says |
| CaptureProofs.ParserMeetsContract | packages/core/src/capture.ts:15-26 | an accepted source gives a title and lines the proposal contract accepts |
| CaptureEvaluation.EvaluateCapture | packages/ai/src/capture-evaluation.ts:41-155 | the errors are exactly those the proposal deserves, every count is what it counts, no grounding fault is found exactly for a grounded proposal, and it passes exactly if it is grounded, fits the label line by line, leaves no line over and asks what is required |
| CaptureEvaluation.MatchLines | packages/ai/src/capture-evaluation.ts:91-105 | every expected line in turn gets the first proposed line that is free for it, and its missing scope and differing fields are exactly those noted |
| CaptureEvaluation.CheckLine | packages/ai/src/capture-evaluation.ts:106-136 | the complaints about one line are exactly those it deserves |
| CaptureGrounding.GroundedExactly | packages/ai/src/capture-evaluation.ts:46-136 | a proposal is grounded exactly if every fact cites this source or explains itself, the title and every description, quantity and unit are the text they cite, every price is the pence of its literal, and all that a line cites stands on the line its description begins on |
| CaptureGrounding.ReferenceExactly | packages/ai/src/capture-evaluation.ts:30-37 | the checker reads a text as pence exactly if it is a pound literal of that many in sixteen characters |
| CaptureGrounding.ChosenApart | packages/ai/src/capture-evaluation.ts:91-105 | no two expected lines are matched with one proposed line or one place in the source |
| CaptureText.SplitAt | packages/ai/src/capture-fixture-parser.ts:45-48 | the running offset of a part is where the text holds it |
| CaptureText.FindTrimmed | packages/ai/src/capture-fixture-parser.ts:120 | searching for trimmed text from a position finds it right after the white space |
| Merchant.ExtractMerchantDocument | packages/ai/src/merchant-extraction.ts:116-185 | text over the budget is refused; otherwise every line row gives its line and every header stated once its field, each with the text, citation and value it has, and the issues are exactly those deserved |
| Merchant.Reconcile | packages/ai/src/merchant-extraction.ts:86-109 | exactly the sums that do not come out are noted |
| Merchant.LineTotalsAddUp | packages/ai/src/merchant-extraction.ts:101-108 | in a reconciled document line totals come to the document total plus discount and credit |
| Merchant.ReadLine | packages/ai/src/merchant-extraction.ts:149-161 | every column of a line is the trimmed text of its own cell at its place, or nothing, and exactly what is wrong with a cell or their number is noted |
| MerchantReading.EverythingCited | packages/ai/src/merchant-extraction.ts:126-172 | every field of a proposal is the text its citation cuts out of a region that was read |
| MerchantReading.CellCited | packages/ai/src/merchant-extraction.ts:152-156 | a cell is where the region holds it by its running offset |
| MerchantReading.KindExactly | packages/ai/src/merchant-extraction.ts:142-168 | a row with something visible is a line or a header exactly by what stands before its first colon |
| MerchantReading.AmountExactly | packages/ai/src/merchant-extraction.ts:65-70 | a text is an amount exactly if it is pounds without superfluous zeros and two decimals, within the limit |
| MerchantReading.MicrosExactly | packages/ai/src/merchant-extraction.ts:188-191 | a text is a quantity exactly if it is a whole number of at most fourteen digits with at most six decimals, and its value is that in millionths |
| MerchantReading.NoIssuesExactly | packages/ai/src/merchant-extraction.ts:116-185 | nothing is noted exactly when the pages are those expected and readable, every row is blank, a header or a line of seven cells, every field is stated once and acceptable, and lines and totals add up |
| Merchant.CheckLines | packages/ai/src/merchant-extraction.ts:89-102 | exactly the lines that do not add up, and a repeated line, are noted |
| EmailStore.FirstWriterWins | apps/api/src/email-delivery.store.ts:48-125 | under any interleaving and faults, every answered delivery of a message gets the one stored readable receipt, another's bytes or alias never do, and only a fault makes a delivery unavailable |
| EmailStore.RivalsConflict | apps/api/src/email-delivery.store.ts:74-125 | without faults, under any interleaving, a delivery given four operations has the stored receipt if that records its bytes and alias and a conflict otherwise |
| EmailStore.RunProgresses | apps/api/src/email-delivery.store.ts:82-125 | every operation of a delivery brings it closer to its end, whatever others do and whatever fails |
| EmailStore.RunSound | apps/api/src/email-delivery.store.ts:48-60 | files are never overwritten, stored receipts stay readable and flags true to their names, and every stage of every delivery stays true to the directory |
| EmailStore.ComposedReadable | apps/api/src/email-delivery.store.ts:61-73 | every receipt the store composes passes its own reading, and text is released exactly when nothing is held |
| EmailReceipts.QuarantineExactly | apps/api/src/email-delivery.store.ts:90-111 | a receipt lists a reason exactly if the alias, the size or an attachment gives it, each once, and holds the text exactly if there is none |
| EmailReceipts.ReceiptExactly | apps/api/src/email-delivery.store.ts:108-112 | a receipt records its message, alias, binding, original, version and time |
| EmailReceipts.RunSourced | apps/api/src/email-delivery.store.ts:48-125 | over every run every stored receipt was there at the start or is the one a delivery of that message composed |
| EmailReceipts.TooLargeRefused | apps/api/src/email-delivery.store.ts:77-81 | a delivery over the intake limit is refused by its first operation, whatever fails |
| EmailStore.EmailDeliveryStore.ReadOriginal | apps/api/src/email-delivery.store.ts:131-144 | the sequential reading is Release |
| EmailReceipts.ReleasedOnly | apps/api/src/email-delivery.store.ts:131-144 | over any run from an empty directory a text is released only to an authorized request of the tenant and job its alias was bound to, and only of a delivery with nothing held, named by its original and time |
| EmailReceipts.ReleasedWhen | apps/api/src/email-delivery.store.ts:131-144 | a stored receipt with nothing held is released to such a request |
| EmailStore.AloneAnswers | apps/api/src/email-delivery.store.ts:82-125 | without faults and rivals, whatever the directory holds: too large, a new receipt, the stored one, unavailable if that is invalid, or a conflict with its flag, each with the directory it leaves |
| EmailStore.EmailDeliveryStore.Receive | apps/api/src/email-delivery.store.ts:82-125 | the sequential method does what its process does alone |
| EmailStore.EmailDeliveryStore.Publish | apps/api/src/email-delivery.store.ts:48-60 | exclusive creation |
| Notices.Deadline | packages/core/src/construction-notices.ts:94-107 | the search terminates for every admitted profile and finds the deadline, refused exactly outside four-digit years |
| Notices.Count | packages/core/src/construction-notices.ts:99-102 | the counting loop crosses exactly the offset's number of counting days and stops on one |
| Notices.WorkingAhead | packages/core/src/construction-notices.ts:26-28 | with at most six weekend days and finitely many holidays a working day lies ahead of every day, in both directions |
| Notices.DeadlineKeepsOrder | packages/core/src/construction-notices.ts:94-107 | a deadline is determined by its due date, and a later due date never has an earlier one |
| Notices.CalendarDeadline | packages/core/src/construction-notices.ts:99-102 | in calendar days the counted date is the offset away |
| Notices.KnownDays | packages/core/src/construction-notices.ts:26-107 | days are counted from 1970-01-01 and the seven days from 2026-11-01 are a week from Sunday on |
| Notices.FixtureWorkingDeadline | packages/core/src/construction-notices.ts:44-107 | under the fixture profile two working days from Friday 2026-10-30 lead to Wednesday, past the weekend and the holiday on Monday |
| Notices.FixtureRoll | packages/core/src/construction-notices.ts:44-107 | under the fixture profile Saturday 2026-10-31 rolls to Tuesday |
| Integrity.UniqueFacts | packages/core/src/commercial-integrity-v3.ts:110-112 | the map of last values, sorted, is one fact per source in identity order |
| Integrity.UniqueForgetsListing | packages/core/src/commercial-integrity-v3.ts:110-112 | permuting or repeating consistent facts, or the line ids in them, gives representatives with the same canonical texts in the same order |
| Integrity.ListingIrrelevant | packages/core/src/commercial-integrity-v3.ts:121-208 | permuting or repeating facts, or the line ids in them, changes no unavailable rule and no finding's key or references, and its snapshot at most within one canonical text |
| Integrity.AdmissionIrrelevant | packages/core/src/commercial-integrity-v3.ts:38-76 | permuting or repeating facts, or the line ids in them, does not change whether the input is admitted |
| Integrity.AllocationsAvoidAlike | packages/core/src/commercial-integrity-v3.ts:181-205 | the rule on allocations judges each by the set of its lines, so lists of one canonical text find the same |
| Integrity.EvaluateCommercialIntegrity | packages/core/src/commercial-integrity-v3.ts:121-208 | the evaluation is Evaluate: rules over representatives, findings kept once a key and sorted; FindingsExactly and UnavailableExactly say what that comes to |
| IntegrityResults.FindingsExactly | packages/core/src/commercial-integrity-v3.ts:121-206 | for each of the nine kinds a finding is listed, once for its key and in order, exactly when the facts that justify it exist; receipts exceed exactly when the unreversed ones come to more than the account and the confirmed catches it does not include, all in its known basis |
| IntegrityResults.UnavailableExactly | packages/core/src/commercial-integrity-v3.ts:127-200 | a rule is reported unavailable for a reason exactly when the policy, source, basis or line it needs is missing in that way |

## Left out

- Decoding of bytes: UTF-8 and its byte count (the byte count is a parameter), JSON text of nested cells (an abstract codec that
  reads back what it writes), base64 and SHA-256 (abstract functions). Characters are single code units, so the difference between
  code units and code points in a few patterns is not modelled.
- Time values: instants are reals, day numbers or opaque texts with an abstract comparison; normalising an instant's text is an
  abstract idempotent function. The mandate's agreement approval record, which no event reads, is not part of the state.
- Digit-length limits of exact fractions in intermediate sums, which can make the original refuse very long fractions.
- Reading of untyped input: schemas appear as datatypes and validity predicates with the constraints the code relies on.
- `vat-treatments.ts` and `retention-balances.ts`: their reconciliation is an input of the CIS model; their rules are not modelled.
- The sandbox's entries and artifacts are values replaced in a sequence and a map, not objects changed in place; every operation of
  the original returns copies, so nothing can alias them. Its ledger and history queries, which only copy out, are left out.
- The accounting model's outside changes replace a whole shelf at once; the at-most-once theorems exclude them, and the history
  theorem does not.
- Names in the receipt store's directory are structured values instead of strings.
- Page geometry in merchant citations, and the recorded recognition adapter beyond a function from pages to regions.
- Notice previews, approvals and histories, and everything that only forwards: controllers, repositories, wiring, environment
  checks, feature gates and error tables; Xero and QuickBooks document mappings; they would add only easy members.
- AccountingSandbox.FakeAccountingTransport.Send: the payload is taken as one the schema accepts, so its parse error is not modelled.
- AccountingSandbox.AccountingExportSandbox.PreviewExport: identifiers and amounts are taken as those the schemas accept.
- EmailStore.EmailDeliveryStore.Publish: temporary files, directory syncing, file modes and failures, because the method runs alone;
  failures before and after the link are faults of the processes in the same module.
- CaptureEvaluation.EvaluateCapture: the original's visitor walks arbitrary values; here it walks the typed facts of a proposal. Errors are
  stated as a set without their order and path texts; a proposal's version fields and the corpus validation are left out.
- Integrity.EvaluateCommercialIntegrity: the rules are functions over the deduplicated lists rather than pushes inside loops, and
  identities and keys are structured values under abstract orders instead of canonical texts. The canonical text of a fact appears
  only through when two facts have the same one.
- Merchant.ExtractMerchantDocument: the issues are stated as a set; the order in which they are listed is not.
- Cis.Reconcile: the reference limits of text fields (trimming and lengths) are not modelled.
