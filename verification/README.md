# MUEFS in Dafny

A model of the Michigan e-filing backend and proofs about it. The tables of the system are values;
each locked section of an endpoint is one atomic step on them, and each slow, unlocked check is a
step of its own that any other step may follow. What is proved is about whole runs: what every step
keeps, what holds in every reachable state, and what holds between any two states of a run.

`dafny verify dfyconfig.toml` checks everything.

## Layout

| file | component |
|---|---|
| `Filings.dfy` | the filing tables and the eighteen requests that change them |
| `FilingInvariants.dfy`, `FilingSteps.dfy`, `FilingRequests.dfy` | the table invariants, what only grows, and their proof request by request |
| `FilingRuns.dfy`, `FilingGuarantees.dfy`, `FilingDates.dfy` | runs, receipts, acceptance, submission, publication, request keys and dates |
| `FilingHistory.dfy`, `FilingDecisions.dfy`, `FilingEffects.dfy` | the history replayed, what each decision leaves and how long it stands, and what each request needs and changes |
| `FilingRegistry.dfy`, `BatchReviews.dfy` | the endpoints as imperative methods, and batch review |
| `FeeGuarantees.dfy`, `FeeEffects.dfy` | fees, payments and the credit ledger |
| `PaymentRegister.dfy`, `RegisterTotals.dfy` | the period register |
| `ReceiptAudit.dfy` | the receipt auditor |
| `Packets.dfy`, `PacketAudit.dfy`, `PacketRuns.dfy`, `PacketGuarantees.dfy`, `PacketDesk.dfy` | document delivery packets, their auditor and endpoints |
| `Outbox.dfy` | the email outbox protocol |
| `ObjectStore.dfy` | stored objects, rollback, unknown commits and the deletion queue |
| `Locks.dfy` | row locks |
| `Calendar.dfy` | court calendars and the filing-date rule of MCR 1.109(G)(5) |
| `Docket.dfy` | docket listing and download rules |
| `Admin.dfy` | accounts and court roles |
| `Scanners.dfy`, `ScannerGrammar.dfy` | comment scanners, and the grammar their findings are held against |

## Conventions

- A SHA-256 digest of a request or of a token is represented by what was hashed, so two are equal
  exactly when the hashed values are. Digests of files are 64 lower-case hexadecimal characters.
- UUIDs, the clock, stored files, court set-up, zone offsets, case management replies, email
  outcomes and role assignments enter as parameters of a step. A run quantifies over all of them.
- Identifiers of appended rows are positions; documents, accounts, contacts and copies have positive ids.
- Runs of the filing, delivery, outbox and storage components start from empty tables; account runs
  start from any tables that meet the account invariants.
- A waiting transaction waits for the holders of a conflicting lock. A shared request is not queued
  behind a waiting exclusive one, as for PostgreSQL row locks.

## Where the code and an expected law part

- The docket and the download rule disagree for a deactivated viewer (`Docket.InactiveViewer`). The
  endpoints never pass one on: an optional sign-in to a disabled account is treated as anonymous
  (backend/app/api/auth.py:38-95).
- A commit that raises, is verified absent, has an upload purged, and then takes effect after all
  leaves a row whose object is gone (`ObjectStore.LateCommitLosesObject`). `LostRowsExactly` and
  `LosingStep` say exactly when; everywhere else rows keep their objects.
- Register periods tile time exactly when a zone's offset never rises by more than a day from one
  date to the next (`PaymentRegister.DaysTileIffSteady`).
- A temporary failure of the fifth attempt ends in failure and permits no further attempt, so
  "the outcome was temporary" permits a retry only below the limit of five.

## Model

| member | source | states |
|---|---|---|
| Filings.Apply | backend/app/api/filings.py:92-398 | Every locked section of the filing endpoints as one function from tables and request to tables and reply; a request that is refused or replayed changes nothing |
| FilingRequests.CreateKeeps | backend/app/services/filing_service.py:209-236 | Creating a draft keeps every table invariant and loses nothing retained, numbered or keyed |
| FilingRequests.UpdateKeeps | backend/app/services/filing_service.py:239-282 | The same of editing a draft's details |
| FilingRequests.UploadKeeps | backend/app/api/filings.py:317-339 | The same of an upload: the new row belongs to one filing and one request key, and the fee version rises |
| FilingRequests.RemoveKeeps | backend/app/api/filings.py:352-386 | The same of a removal, soft or hard: a row that a receipt names, or whose filing was submitted, is never deleted |
| FilingRequests.SubmitKeeps | backend/app/services/filing_service.py:497-539 | The same of the locked half of a submission: the receipt is the next in number and names exactly the current documents, which become retained |
| FilingRequests.ProbeKeeps | backend/app/services/filing_service.py:548-589 | The same of the unlocked check before a review; the evidence it returns joins what later reviews may present |
| FilingRequests.EvidenceTrue | backend/app/services/filing_service.py:567-589 | Evidence describes the state it was read in: date version, count, ordered date and the fingerprints a lock would see |
| FilingRequests.RecordKeeps | backend/app/services/filing_service.py:592-708 | Recording a review (accept with or without the case system failing, reject and return) keeps every table invariant and loses nothing retained; which status each leaves is FilingDecisions.RejectionIsFinal, ReturnReopens and AcceptanceStands |
| FilingRequests.FeeReviewKeeps | backend/app/api/fee_assessments.py:57-117 | The same of a fee review request: its manifest names the current documents, which become retained |
| FilingRequests.AssessKeeps | backend/app/api/fee_assessments.py:121-197 | The same of a fee assessment: its version is the filing's and its manifest the current documents |
| FilingRequests.WaiveKeeps | backend/app/api/fee_waivers.py:49-142 | The same of a waiver decision or referral: a decision retains the signed order it names |
| FilingRequests.OrderKeeps | backend/app/api/filing_dates.py:77-185 | The same of a filing-date order: the date rests on a retained order of this filing, and a case date moves only from the expected version |
| FilingRequests.PrepareKeeps | backend/app/api/document_publication.py:61-118 | The same of preparing a public copy: its document can no longer be deleted |
| FilingRequests.PublishKeeps | backend/app/services/document_publication_service.py:70-144 | The same of publishing a copy: the published copy belongs to the document, whose original is restricted |
| FilingRequests.CalendarKeeps | backend/app/api/court_calendars.py:58-88 | The same of publishing a calendar revision: revisions only grow |
| FilingRequests.WithholdKeeps | backend/app/services/document_publication_service.py:147-197 | The same of withholding a document |
| FilingRequests.PayKeeps | backend/app/api/payments.py:20-88 | The same of a simulated payment by the filer |
| FilingRequests.CreditKeeps | backend/app/api/external_payments.py:91-248 | The same of an external credit: request keys stay unique, and so do receipts among standing credits |
| FilingRequests.ReverseKeeps | backend/app/api/external_payments.py:252-308 | The same of a reversal: only the status of one external payment changes |
| FilingRuns.RunInv | backend/app/services/filing_service.py:481-708 | All table invariants hold in every state of every run of all eighteen kinds of request from empty tables |
| FilingRuns.RunGrows | backend/app/services/filing_record_service.py:59-75 | Between any two states of a run, rows a receipt can name are neither deleted, moved, refingerprinted nor un-restricted; history, copies, versions, keys and destinations only grow |
| FilingRuns.ReceiptsNumbered | backend/app/services/filing_service.py:519-533 | The submission count is the number of submission receipts, and they carry the numbers 1..n in order |
| FilingRuns.OneSource | backend/app/services/service_delivery_service.py:108-136 | A submitted filing has exactly one receipt with its current submission number, so the single-source check never refuses |
| FilingRuns.FiledAtFirstReceipt | backend/app/services/filing_service.py:512-514 | The filing time is the first receipt's and stays so through any number of returns and resubmissions |
| FilingRuns.DateStands | backend/app/api/filing_dates.py:171-181 | An unchanged date version between two states means date, basis, count and status were the same in every state between |
| FilingRuns.DocumentsStand | backend/app/services/filing_service.py:607-620 | With the same submission count and no editable status, the documents have the same fingerprints |
| FilingGuarantees.EvidenceRead | backend/app/services/filing_service.py:73-93 | Each fingerprint in the evidence belongs to a row and was read back from storage with that digest and size; the current documents come first and are not none |
| FilingGuarantees.AcceptanceCommitsVerified | backend/app/services/filing_service.py:548-658 | Whatever runs between check and commit: if the date version matches, count, pending status, date basis and fingerprints still match too, and every current document is one read intact from storage |
| FilingGuarantees.SubmissionCommitsVerified | backend/app/services/filing_service.py:486-533 | If the unlocked half of a submission passed and the locked half passes at any later state, the receipt carries exactly the fingerprints read back from storage, and each document is the object that was read |
| FilingGuarantees.PublicationCommitsVerified | backend/app/services/document_publication_service.py:70-117 | If the unlocked half of a publication passed and the locked half passes at any later state, the published copy is the row whose file was read back intact, and the document's access was the same in every state between |
| FilingDates.DatesFromCalendars | backend/app/services/filing_service.py:521-524 | In every reachable state an assessed date basis is the assessment of the filing's first receipt by the court's revisions published up to some moment |
| FilingDates.FiledOnEarliestOpenDay | backend/app/services/filing_service.py:640-658 | A recorded date without a court order is the earliest Monday to Friday the court was open from the local date of the first receipt on, under the newest revisions of that moment; the receipt lies between that local date's midnight and the next |
| FilingGuarantees.OrderedDateSurvives | backend/app/services/filing_service.py:519-524 | A court-ordered date survives return, resubmission and acceptance until a later order for the filing |
| FilingGuarantees.OrderSurvivesReview | backend/app/services/filing_service.py:640-658 | No review replaces a court-ordered basis, because its evidence says whether the date was ordered |
| FilingGuarantees.CreatedOnce | backend/app/api/filings.py:106-131 | After a filing is created under a key, at any later state the same data replays and other data is refused, and neither changes anything |
| FilingGuarantees.UploadedOnce | backend/app/api/filings.py:289-338 | After an upload under a key nothing under that key changes the tables again; it replays exactly when the fingerprint matches and the document is still current |
| FilingGuarantees.SubmittedOnce | backend/app/services/filing_service.py:451-455 | After a submission under a key the same key never submits again, at any later state |
| FilingGuarantees.CreditedOnce | backend/app/api/external_payments.py:103-118 | After a credit under a key the same request replays and any other is refused, at any later state |
| FilingHistory.HistoryTells | backend/app/services/filing_record_service.py:17-75 | In every reachable state replaying a filing's history rows from an empty draft gives exactly its status, date basis, review, case-system error, waiver answer, assessment, payment, versions, counts and receipt times; every row has the right kind of author, every refusal a reason, every receipt a met fee obligation |
| FilingDecisions.LatestDecisionStands | backend/app/services/filing_service.py:635-708 | In every reachable state a filing's status, and who reviewed it and why, are those of its latest receipt, decision or failed transfer, and without one it is a draft |
| FilingDecisions.RejectionIsFinal | backend/app/services/filing_service.py:695-703 | After a recorded reject the filing is Rejected in every later state, its reason stays in the history, and no edit, document, submission, review, fee decision or payment of it goes through |
| FilingDecisions.ReturnReopens | backend/app/services/filing_service.py:699-703 | After a recorded return the filing is Returned until it is received again, its reason stays in the history, and its filer may edit it with a fresh token, add documents and remove them |
| FilingDecisions.AcceptanceStands | backend/app/services/filing_service.py:659-696 | An acceptance the case system took is final and keeps the case it has or the new one opened from the first receipt; one it refused leaves the filing under review with the error and no case |
| FilingDecisions.AcceptRecorded | backend/app/services/filing_service.py:659-708 | The row, status, case and case-system identity an acceptance leaves, for either answer of the case system |
| FilingDecisions.StatusMoves | backend/app/services/filing_service.py:607-614 | Only a submission from a draft or returned filing and a review of a pending one change a status |
| FilingDecisions.OrderRecorded | backend/app/api/filing_dates.py:108-185 | A date order sets the date it orders on the filing and, where named, on its case, and retains the signed order; no other case changes |
| FilingDecisions.DateOrderStands | backend/app/api/filing_dates.py:108-185 | The date requested is the filing date in every later state until another order |
| FilingDecisions.AcceptedIsDated | backend/app/services/filing_service.py:642-648 | Outside a demonstration every accepted filing of every reachable state has a filing date |
| FilingEffects.CreatedIff | backend/app/services/filing_service.py:209-236 | A draft is created exactly for someone who may file, under an unused key, for an enabled place that suits it |
| FilingEffects.CreatedDraft | backend/app/services/filing_service.py:209-236 | The new filing is an empty draft of the actor's with the details asked for, under its case's title if it has one |
| FilingEffects.EditedIff | backend/app/services/filing_service.py:239-282 | An edit goes through exactly for the filer of an editable filing who names what they saw and leaves alone what may no longer change |
| FilingEffects.EditedDetails | backend/app/services/filing_service.py:262-282 | What an edit gives replaces, what it does not give stays, and asking for a waiver withdraws an open fee review |
| FilingEffects.EditsWhatWasShown | backend/app/services/filing_service.py:245-256 | An edit that goes through was made on the details, status and count its token names |
| FilingEffects.UploadedIff | backend/app/api/filings.py:292-316 | A first upload goes through exactly for the filer of an editable filing and never as a court's own order |
| FilingEffects.UploadedDocument | backend/app/api/filings.py:317-339 | The upload is the last current document, as sent, restricted if asked for or if it is waiver material; every other row stays |
| FilingEffects.RemovedIff | backend/app/api/filings.py:352-368 | A removal goes through exactly for the filer of an editable filing, of one of its current documents |
| FilingEffects.RemovedDocument | backend/app/api/filings.py:369-386 | The document leaves the current ones, and its row is deleted exactly when it was never retained and the filing never submitted |
| FilingEffects.WaiverMaterialRestricted | backend/app/api/filings.py:317-331 | In every reachable state waiver applications and waiver orders are restricted |
| FilingEffects.SubmissionReadyIff | backend/app/services/filing_service.py:447-495 | The unlocked half of a submission passes exactly for the filer of an editable, complete filing seen as it is, whose obligation is met, place suits and files are all intact |
| FilingEffects.SubmitsWhatWasShown | backend/app/services/filing_service.py:456-462 | Whatever ran since the review page was read, a submission that goes through has the details, place, fee and payment versions then shown, and its receipt lists exactly the documents then shown |
| FilingEffects.AcceptedWasVerified | backend/app/services/filing_service.py:548-658 | An acceptance that goes through rests on evidence that is still true: the same count, date and fingerprints, and documents read intact from storage |
| FilingEffects.DeclinedIff | backend/app/services/filing_service.py:605-614 | A reject or return goes through exactly for the court's staff other than the filer, at the count they saw, with a reason |
| FilingEffects.PreparedIff | backend/app/api/document_publication.py:61-118 | A copy is prepared exactly by independent staff for a current document of an accepted filing that is not waiver material |
| FilingEffects.RevisionIff | backend/app/api/court_calendars.py:58-88 | A revision is published exactly by the court's administrators and judges, says what they wrote and leaves earlier ones alone |
| FilingRegistry.Registry.Create | backend/app/api/filings.py:94-131 | The endpoint's statements compute exactly the specified tables and reply, from tables that meet every invariant to tables that do, losing nothing retained; so do all methods of this class that follow |
| FilingRegistry.Registry.Update | backend/app/services/filing_service.py:239-282 | The same of editing details |
| FilingRegistry.Registry.PutDocument | backend/app/api/filings.py:270-348 | The same of an upload |
| FilingRegistry.Registry.DropDocument | backend/app/api/filings.py:352-386 | The same of a removal |
| FilingRegistry.Registry.VerifyDocuments | backend/app/services/filing_service.py:73-93 | The loop passes exactly when there is a document and every stored file has its recorded digest and size |
| FilingRegistry.Registry.SubmitUnlocked | backend/app/services/filing_service.py:486-495 | The unlocked half of a submission computes the specified reply and fingerprints |
| FilingRegistry.Registry.SubmitLocked | backend/app/services/filing_service.py:497-539 | The same of a submission under the lock, with its date from the windowed calendar query |
| FilingRegistry.Registry.CollectPrints | backend/app/services/filing_service.py:583-589 | The loop collects each document's id, digest and size in order |
| FilingRegistry.Registry.Verify | backend/app/services/filing_service.py:548-589 | The guards, the lookup of the signed order, the storage loop and the collected fingerprints give the specified reply and evidence, which joins what a review may present |
| FilingRegistry.Registry.Record | backend/app/services/filing_service.py:592-708 | The statements compute exactly the specified tables and reply of a review on evidence an earlier check gathered; FilingDecisions and FilingEffects say what those are |
| FilingRegistry.Registry.AcceptEnvelope | backend/app/services/filing_service.py:640-696 | The same of its accepting branch, step by step |
| FilingRegistry.Registry.RetainDocuments | backend/app/services/filing_record_service.py:59-64 | Each listed document that was not retained becomes so, and nothing else changes |
| FilingRegistry.Registry.FeesOf | backend/app/services/fee_assessment_service.py:14-104 | The successive assignments compute the specified source, total, balance, overpayment and obligation, whose paid amount is FeeEffects.PaidIsHistory |
| FilingRegistry.Registry.ReviewReason | backend/app/services/fee_assessment_service.py:51-61 | An open fee review shows the reason of its latest request |
| FilingRegistry.Registry.PermissionsFor | backend/app/services/fee_assessment_service.py:105-147 | The assignments compute the specified six permission flags |
| FilingRegistry.Registry.AskFeeReview | backend/app/api/fee_assessments.py:57-117 | The same of a fee review request |
| FilingRegistry.Registry.Assess | backend/app/api/fee_assessments.py:121-197 | The same of a fee assessment |
| FilingRegistry.Registry.Decide | backend/app/api/fee_waivers.py:23-142 | The same of a waiver decision |
| FilingRegistry.Registry.OrderDate | backend/app/api/filing_dates.py:77-185 | The same of a filing-date order |
| FilingRegistry.Registry.Prepare | backend/app/api/document_publication.py:61-118 | The same of preparing a copy |
| FilingRegistry.Registry.PublishUnlocked | backend/app/services/document_publication_service.py:78-94 | The unlocked half of a publication computes the specified reply, reading the copy back from storage |
| FilingRegistry.Registry.Publish | backend/app/services/document_publication_service.py:95-144 | The same of the locked half, which checks everything again |
| FilingRegistry.Registry.PublishRevision | backend/app/api/court_calendars.py:58-88 | The same of publishing a calendar revision |
| FilingRegistry.Registry.Withhold | backend/app/services/document_publication_service.py:147-197 | The same of withholding |
| FilingRegistry.Registry.Pay | backend/app/api/payments.py:20-88 | The same of a payment |
| FilingRegistry.Registry.Credit | backend/app/api/external_payments.py:91-248 | The same of an external credit |
| FilingRegistry.Registry.Reverse | backend/app/api/external_payments.py:252-308 | The same of a reversal |
| BatchReviews.InOrderAscends | backend/app/services/filing_service.py:731-735 | A batch is worked through by ascending filing id |
| FilingRegistry.Registry.BatchReview | backend/app/api/clerk_review.py:156-215 | The two loops of a batch check every filing and then record each verified one in turn; each filing ends once in exactly one of the two lists |
| BatchReviews.ProbeAllKeeps | backend/app/api/clerk_review.py:163-187 | The checking loop keeps every invariant and all its evidence may be presented |
| BatchReviews.RecordAllKeeps | backend/app/api/clerk_review.py:188-215 | The recording loop keeps every invariant |
| BatchReviews.BatchAcceptsVerified | backend/app/api/clerk_review.py:190-214 | Every filing the batch reports accepted is accepted, on documents whose fingerprints its own check read |
| BatchReviews.BatchReportsAccepted | backend/app/api/clerk_review.py:188-215 | Whatever the batch accepts it reports, and it touches no filing it did not verify |
| ReceiptAudit.CompareReceiptBatch | backend/app/storage_audit.py:98-138 | A batch of references is judged one by one against the stored rows; ReceiptAudit.VerdictIsFair says when each verdict is given |
| ReceiptAudit.VerdictIsFair | backend/app/storage_audit.py:124-137 | For any tables and any stored entry: invalid exactly when it does not read as ids, digest and size; missing exactly when a row it names is absent; consistent exactly when the rows have that filing, document, digest and size; a mismatch otherwise |
| ReceiptAudit.InspectRows | backend/app/storage_audit.py:141-235 | For any tables and any stored manifests, the audit answers every entry once and no other, each fairly |
| ReceiptAudit.InspectRow | backend/app/storage_audit.py:187-229 | One receipt adds exactly its own verdicts, yielded at once or held for the batch |
| ReceiptAudit.InspectReceipts | backend/app/storage_audit.py:141-235 | Paging by 25 and batching by 250 change the order of the verdicts and nothing else; for any tables every entry of every receipt in scope is answered, and each verdict is the one the spelled-out rows deserve |
| ReceiptAudit.EveryReceiptConsistent | backend/app/storage_audit.py:141-235 | In every reachable state, for any court or case, the auditor yields only consistent verdicts: no empty manifest, no missing, moved or refingerprinted row |
| ReceiptAudit.EveryEntryJudged | backend/app/storage_audit.py:196-224 | No retained receipt escapes: each document it names has its own consistent verdict |
| FeeGuarantees.CourtFeeCoversDocuments | backend/app/services/fee_assessment_service.py:47-78 | Whenever the fee source is the court, the current documents are exactly those in that assessment's manifest |
| FeeGuarantees.DocumentChangeRaisesVersion | backend/app/api/filings.py:333-386 | Any change to a filing's documents strictly raises its fee version |
| FeeGuarantees.BalanceAndOverpayment | backend/app/services/fee_assessment_service.py:99-101 | Balance less overpayment is total less paid, and at most one is positive; the obligation is met exactly when the total is paid or a requested waiver is undecided |
| FeeGuarantees.PaidWithinBalance | backend/app/api/external_payments.py:122-137 | No request adds more to what the filer has paid than the balance that was due |
| FeeGuarantees.OverpaymentFollowsTotal | backend/app/services/fee_assessment_service.py:19-27 | While the total stays the same, no sequence of requests turns zero overpayment positive |
| FeeGuarantees.PayIffOffered | backend/app/api/payments.py:40-60 | A payment goes through exactly when the fee page offers it to the payer, at the version and amount shown, in a simulated deployment |
| FeeGuarantees.ReviewRequestIffOffered | backend/app/api/fee_assessments.py:66-80 | A fee review request goes through exactly when the page offers it, with a reason and intact documents |
| FeeGuarantees.AssessmentIffOffered | backend/app/api/fee_assessments.py:129-150 | An assessment goes through exactly when the page offers it, within the limit and with intact documents |
| FeeGuarantees.CreditIffOffered | backend/app/api/external_payments.py:103-137 | A new credit goes through exactly when the page offers it, at the versions shown and for no more than is due |
| FeeGuarantees.CreditsConserved | backend/app/api/external_payments.py:180-308 | Credits less reversals in the history equal the court's external payments that still stand, simulated and real apart |
| FeeGuarantees.ReversedOnce | backend/app/api/external_payments.py:273-274 | Reversing a reversed credit again, at any later state, adds no event |
| FeeEffects.PaidIsHistory | backend/app/services/fee_assessment_service.py:19-27 | In every reachable state the amount paid is the filing's payments and credits recorded in the history less its credits reversed, simulated ones only in a demonstration |
| FeeEffects.PaymentSettles | backend/app/api/payments.py:40-88 | A payment is of exactly the balance and leaves none, the total unchanged and the obligation met |
| FeeEffects.CreditLowersBalance | backend/app/api/external_payments.py:120-248 | A credit lowers the balance by exactly its amount and leaves the total alone |
| FeeEffects.ReversalRaisesBalance | backend/app/api/external_payments.py:252-308 | Without an overpayment a reversal raises the balance by exactly the credit's amount; the amount paid always falls by it |
| FeeEffects.AssessmentSetsTotal | backend/app/api/fee_assessments.py:150-197 | An assessment makes the court the fee source and the total exactly the one assessed; the obligation is met exactly when that much was paid |
| FeeEffects.WaiverSetsTotal | backend/app/api/fee_waivers.py:77-142 | A granted waiver leaves nothing to pay, a denial exactly the amount it names, a referral the question open |
| FeeEffects.WaiverDecisionStands | backend/app/api/fee_waivers.py:77-142 | Once decided, a waiver sets the total in every later state, whatever is assessed, filed or paid |
| FeeEffects.WaiverDecidedIff | backend/app/api/fee_waivers.py:23-80 | A waiver is decided exactly while open on a submitted, unclosed filing, by the judge or clerk entitled to that decision, other than the filer, at the version seen |
| FeeEffects.ReversalIffOffered | backend/app/api/external_payments.py:252-280 | A reversal goes through exactly when the page lets the viewer manage credits, once for each credit, at the version shown |
| FeeEffects.WaiverRequestIffOffered | backend/app/services/fee_assessment_service.py:105-147 | The page offers a waiver request exactly when switching it on would go through |
| FeeEffects.TotalHasBasis | backend/app/services/fee_assessment_service.py:29-98 | Outside a demonstration a total comes only from a service record, a waiver decision or an assessment of the current version, and without one only an open waiver meets the obligation |
| FeeEffects.PaidIff | backend/app/api/payments.py:28-60 | A payment goes through exactly for the filer, of exactly what is left of the total, on a filing neither rejected nor served with no undecided waiver, where payments are simulated |
| FeeEffects.CreditedIff | backend/app/api/external_payments.py:91-179 | A new credit goes through exactly for the court's administrators other than the filer, of at most what a court decision leaves to pay, on a receipt with no standing credit |
| FeeEffects.FeeReviewIff | backend/app/api/fee_assessments.py:57-90 | A fee review is requested exactly by the filer, once at a time, with a reason, over intact documents, while no waiver was asked for or decided |
| FeeEffects.AssessedIff | backend/app/api/fee_assessments.py:121-160 | Fees are assessed exactly by the court's staff other than the filer, within the limit, over intact documents |
| PaymentRegister.PeriodRegister | backend/app/api/payment_register.py:36-75 | The register refuses as coded, and otherwise its entry count and four totals are those of the events between the two local midnights |
| PaymentRegister.TilesIffMidnightsAscend | backend/app/api/payment_register.py:44-46 | Consecutive half-open periods count every instant exactly once if and only if their bounds never go back |
| PaymentRegister.DaysTileIffSteady | backend/app/api/payment_register.py:44-46 | For a zone's local midnights, days tile time if and only if the zone's offset never rises by more than a day from one date to the next |
| PaymentRegister.SteadyPeriodsTile | backend/app/api/payment_register.py:44-46 | In such a zone any consecutive periods count every event exactly once |
| PaymentRegister.BackwardMidnightCountsTwice | backend/app/api/payment_register.py:44-46 | A zone that moves from twelve hours behind UTC to fourteen ahead counts an event in two daily registers |
| PaymentRegister.RegistersConserve | backend/app/api/payment_register.py:52-75 | In every reachable state and every such zone, the totals the register reports for consecutive periods that cover the history add up to the external payments that still stand, simulated and real apart |
| RegisterTotals.ReportSays | backend/app/api/payment_register.py:52-75 | Each figure of a report, credits, reversals and entries apart, is the sum over the court's own rows of that kind between the two midnights |
| RegisterTotals.RegisterCountsOnce | backend/app/api/payment_register.py:44-75 | Over consecutive periods of a steady zone that cover the history the reports show each credit and reversal once, and real credits and real reversals are each the whole amount |
| ServicePackets.RoutingIssues | backend/app/services/service_contact_service.py:21-68 | The list of issues is empty exactly when the contact may be used |
| PacketDesk.Desk.SaveServiceInstructions | backend/app/api/service_contacts.py:79-157 | The endpoint computes exactly the specified contact: a change raises the version by one, no change leaves the row alone |
| PacketDesk.Desk.CheckContacts | backend/app/services/service_delivery_service.py:202-232 | The loop passes exactly when every chosen contact is current and routable and no two share an account |
| PacketDesk.Desk.CheckDocuments | backend/app/services/service_delivery_service.py:233-261 | The loop passes exactly when every chosen document is sendable; PacketGuarantees.SentIff says what that takes |
| PacketDesk.Desk.AddRecipients | backend/app/services/service_delivery_service.py:295-321 | One notice and one recipient row, with its contact snapshot, for each contact in turn |
| PacketDesk.Desk.SendPacket | backend/app/services/service_delivery_service.py:154-322 | Creating a packet computes exactly the specified rows and reply; PacketGuarantees says when it goes through and what it carries |
| PacketGuarantees.SentIff | backend/app/services/service_delivery_service.py:186-261 | A new packet is sent exactly when the key is unused, the receipt is the current one, every chosen document is retained and unchanged with a stored file of that digest and size, and every chosen contact is current, routable and on an account of its own |
| PacketGuarantees.PacketCommitsVerified | backend/app/services/service_delivery_service.py:233-321 | Every entry of a sent packet is of the current receipt, and its retained row's file was read from storage with exactly the entry's digest and size; exactly the chosen documents are in it, and each chosen contact has one row and one notice |
| PacketGuarantees.EveryPacketBacked | backend/app/services/service_delivery_service.py:262-276 | In every later state each entry of every packet is still the file of a row of its filing |
| PacketGuarantees.SavedIsUsable | backend/app/api/service_contacts.py:100-157 | Saved instructions are one version on from what the saver saw and record the participant as now reviewed; active electronic ones are usable by the very rules that sending applies |
| PacketRuns.SaveKeeps | backend/app/api/service_contacts.py:127-157 | Saving instructions keeps every packet and recipient consistent: a changed contact has a higher version |
| PacketRuns.CreateKeeps | backend/app/services/service_delivery_service.py:154-322 | Creating a packet keeps all earlier ones consistent and adds a consistent one |
| PacketAudit.InspectServicePackets | backend/app/storage_audit.py:255-495 | For any court or case, the paged loop yields, in order, a verdict for each packet in scope, then for each of its recipients, then the orphans; for any tables every verdict is fair and none in scope is left out |
| PacketAudit.PacketVerdictIsFair | backend/app/storage_audit.py:344-424 | For any tables a packet is judged consistent exactly when it is what a receipt of its filing, its stored request and its recipients say, missing exactly when a row it points to is absent, and invalid exactly when its lists cannot be read |
| PacketAudit.RecipientVerdictIsFair | backend/app/storage_audit.py:425-470 | The same of each recipient: consistent exactly when snapshot, contact, participant and notice agree with the packet |
| PacketRuns.RunInv | backend/app/storage_audit.py:344-470 | The packet invariants hold in every run of filing requests, account, participant and contact changes, packets and notices |
| PacketRuns.EveryPacketConsistent | backend/app/storage_audit.py:344-470 | In every later state each packet and each of its recipients is judged consistent: the recomputed selection matches, and a snapshot equals the live contact while versions are equal |
| PacketRuns.AuditConsistent | backend/app/storage_audit.py:255-495 | Everything the packet auditor yields in a reachable state, for any court or case, is consistent, with no orphaned recipient |
| PacketRuns.PacketOnce | backend/app/services/service_delivery_service.py:175-185 | Under a key an actor has one packet: the same selection replays, another is refused, neither changes anything |
| EmailOutbox.Outbox.PostNotice | backend/app/services/email_delivery_service.py:59-125 | Posting a notice computes the specified outbox |
| EmailOutbox.Outbox.QueueEmail | backend/app/services/email_delivery_service.py:59-125 | Queueing makes the notice due or records why not |
| EmailOutbox.Outbox.ClaimEmail | backend/app/services/email_delivery_service.py:128-186 | A worker claims the notice due longest that no other has locked, or none when there is none; it is being sent, or blocked when its recipient or route no longer stands |
| EmailOutbox.Outbox.FinishAttempt | backend/app/services/email_delivery_service.py:257-296 | The statements compute the specified outbox; EmailOutbox.FinishTakesEffect and StatusFollowsHistory say what each outcome leaves |
| EmailOutbox.Outbox.RecoverInterrupted | backend/app/services/email_delivery_service.py:299-326 | The sweep marks exactly the attempts started ten minutes ago or longer and still sending as uncertain, with one event each |
| EmailOutbox.Outbox.RetryDelivery | backend/app/api/notifications.py:166-192 | A person requeues exactly the notices whose state allows it; an uncertain or reported one only staff, and a pending, sending or sent one nobody |
| EmailOutbox.Outbox.ReportDeliveryFailure | backend/app/api/service_deliveries.py:264-349 | A failure report applies to the message and attempt it was seen on; under a used key the same report replays and another is refused |
| EmailOutbox.ReportedOnce | backend/app/api/service_deliveries.py:282-296 | After a report under a key, at any later state the same report replays, another is refused, and neither changes anything |
| EmailOutbox.RunInv | backend/app/services/email_delivery_service.py:59-326 | Every notice's fields agree with its history in every interleaving of workers, recovery and people; pending means a next attempt is set |
| EmailOutbox.StatusFollowsHistory | backend/app/services/email_delivery_service.py:281-296 | In every interleaving a notice's status follows from its last deciding event: sent exactly after an accepted finish, with its time; failed exactly after a permanent failure or a temporary one from the fifth attempt on; unknown exactly after an uncertain finish or a recovery; pending exactly after a queueing, due at once, or an earlier temporary failure, due 2, 4, 8 or 16 minutes later |
| EmailOutbox.FinishTakesEffect | backend/app/services/email_delivery_service.py:276-296 | While nothing but the sweep has come since its start, an attempt's finish changes its notice as its outcome says and no other |
| EmailOutbox.NextAttemptIsPermitted | backend/app/services/email_delivery_service.py:128-186 | A further attempt starts only after a queueing or an applied temporary failure since the attempt before |
| EmailOutbox.NoUnattendedResend | backend/app/services/email_delivery_service.py:281-296 | If the attempt before ended otherwise, a person requeued the notice in between |
| EmailOutbox.AttemptNumbering | backend/app/services/email_delivery_service.py:143-185 | Claims carry the numbers 1..attempts, once each; attempts, plus one if pending, are at most five plus the human requeues |
| EmailOutbox.LateFinishIsInert | backend/app/services/email_delivery_service.py:257-280 | A finish for an old attempt or a requeued notice changes no notice field |
| RowLocks.ProgramsAreOrdered | README.md:231-237 | Every request takes its locks in the documented order |
| RowLocks.WaitingClimbs | README.md:231-237 | Whoever is waited for next needs a lock later in the order |
| RowLocks.NoWaitCycle | backend/app/services/filing_service.py:731-735 | No reachable state of concurrent uploads, submissions, batch reviews and date orders has a circle of waiting transactions |
| RowLocks.SomeoneProceeds | backend/app/api/filing_dates.py:108-127 | While any transaction is open, some open one can go on |
| RowLocks.OneInsidePerFiling | backend/app/services/filing_service.py:604-604 | No two transactions are ever past their locks at once for the same filing |
| RowLocks.OrdersExcludeReaders | backend/app/api/filing_dates.py:108-127 | While an order changes a case's date no submission into the case and no review of its filings is past its locks |
| CourtCalendars.Search | backend/app/services/court_calendar_service.py:45-62 | The bounded loop finds the day, the revisions consulted and the days skipped |
| CourtCalendars.AssessDate | backend/app/services/court_calendar_service.py:28-62 | The assessment is the specified one |
| CourtCalendars.FilingDateForReceipt | backend/app/services/court_calendar_service.py:65-82 | Assessing the queried window gives the assessment over all the court's revisions |
| CourtCalendars.WindowSuffices | backend/app/services/court_calendar_service.py:65-82 | For zone offsets under a day, the window and the whole table give the same assessment |
| CourtCalendars.CoveringGoverns | backend/app/services/court_calendar_service.py:46-48 | The revision used for a day is the newest that covers it |
| CourtCalendars.ReportIsEarliest | backend/app/services/court_calendar_service.py:45-62 | A date is the earliest open weekday; skipped dates are exactly the days before it; otherwise the first obstacle or exhaustion is reported |
| CourtCalendars.UncoveredReceipt | backend/app/services/court_calendar_service.py:28-42 | There is no date and no zone exactly when no revision of the court covers the received date in its own zone |
| CourtCalendars.AssessedDate | backend/app/services/court_calendar_service.py:28-62 | For a covered receipt, the same from the local received date under the newest covering revisions |
| CourtCalendars.AssessmentCites | backend/app/services/court_calendar_service.py:52-60 | An assessment cites, once each, exactly the revisions that govern the days it searched, and gives each skipped day the reason its governing revision gives, or "Weekend" |
| ObjectStore.StepKeeps | backend/app/services/storage_intent.py:18-85 | Each step of a request, a rollback, a verification, a purge, a late landing or a cleanup worker keeps the invariants of objects, rows, sessions and jobs |
| ObjectStore.LostRowsExactly | backend/app/services/storage_intent.py:48-78 | In every interleaving a row is without its object if and only if its commit landed after its own check, that session deleted the object, and nobody removed the row since |
| ObjectStore.LossNeedsCheck | backend/app/services/storage_intent.py:55-64 | Such a session had a check that could read the rows |
| ObjectStore.CommittedObjectsStored | backend/app/database.py:52-70 | In every interleaving, ambiguous and late commits included, all committed rows have their objects if and only if no late commit with a readable check purged an upload whose row still stands |
| ObjectStore.LateCommitsSafe | backend/app/services/storage_intent.py:60-64 | So late commits are safe after an unreadable check, which keeps everything, or when every deletion failed, and without late commits no object is lost |
| ObjectStore.LosingStep | backend/app/services/storage_intent.py:67-78 | From a state with all objects stored, a step loses one exactly when it lands a checked commit after a successful purge of its upload, or purges what landed meanwhile |
| ObjectStore.LateCommitLosesObject | backend/app/services/storage_intent.py:48-78 | A concrete run that ends in that losing step, every state before it sound |
| ObjectStore.UploadsAccounted | backend/app/services/storage_intent.py:67-78 | When a request has ended, each upload has or had a row, or its deletion was attempted, or it was kept because the check failed |
| ObjectStore.RemovedFilesQueued | backend/app/storage_cleanup.py:20-64 | In every interleaving the stored file of a removed draft document has a deletion job |
| ObjectStore.DelayGrows | backend/app/storage_cleanup.py:48-53 | Waits start at half a minute, never shrink and stop at an hour |
| ObjectStore.DelayTable | backend/app/storage_cleanup.py:48-53 | The wait after the n-th failure is half a minute doubled n - 1 times up to the seventh, then an hour |
| ObjectStore.Janitor.PurgeKeys | backend/app/services/storage_intent.py:40-45 | Every key is tried, each as a step of its own; one failed deletion does not stop the others |
| ObjectStore.Janitor.RollbackWithUploadCleanup | backend/app/database.py:58-61 | After a raising handler every upload is purged except where deletion fails |
| ObjectStore.Janitor.RollbackFailedCommit | backend/app/services/storage_intent.py:67-78 | After a raising commit uploads a row refers to are spared, and all are when the rows cannot be read |
| ObjectStore.Janitor.CleanupNext | backend/app/storage_cleanup.py:20-64 | The longest-waiting due and unlocked job is consumed or put off, by the claiming, deleting and finishing steps of a worker; a referenced object is never deleted |
| ObjectStore.Janitor.Drain | backend/app/storage_cleanup.py:67-69 | With any steps of others between passes draining ends, having consumed at most the jobs present plus those queued meanwhile |
| Docket.GetCaseFilings | backend/app/api/cases.py:94-170 | The nested loops list exactly the items the docket rule shows |
| Docket.DocketMatchesDownloads | backend/app/api/cases.py:121-170 | In every reachable state, for a viewer anonymous or active and neither staff nor filer, an item is listed if and only if it may be downloaded |
| Docket.OutsidersGetPublic | backend/app/services/access_service.py:113-156 | In every reachable state an outsider in good standing may fetch exactly what is public: an unrestricted original, or the copy now published, of an accepted filing that is not waiver material or removed, in an open case or a sealed one they have a grant for or administer |
| Docket.SealedCase | backend/app/services/access_service.py:36-77 | Nothing of a sealed case is listed to anyone anonymous or inactive, nor to anyone but its staff, a granted participant or the system administrator |
| Docket.InsidersRead | backend/app/services/access_service.py:139-156 | The filer and the court's staff may read every document of a filing |
| Docket.InsidersListed | backend/app/api/cases.py:121-170 | On a docket they may read, the filer and the court's staff are listed the original of every document but removed ones and waiver orders |
| Docket.PublishedIsServed | backend/app/services/document_publication_service.py:98-117 | After a publication outsiders get the published copy, and it alone, wherever the case is open to them |
| Docket.WithheldIsHidden | backend/app/services/document_publication_service.py:147-197 | After a document is withheld no outsider gets its original again, nor a copy until its access is decided anew |
| Docket.InactiveViewer | backend/app/services/access_service.py:36-77 | A deactivated viewer is listed nothing, yet the download rule alone would admit exactly the public originals of open cases |
| Docket.InactiveViewerExample | backend/app/services/access_service.py:113-136 | A run from empty tables at whose end the two rules part on a public complaint |
| Docket.PublishedStaysRestricted | backend/app/services/document_publication_service.py:98-117 | A published document has a restricted original, and no later step lifts the restriction |
| Administration.Directory.UpdateProfile | backend/app/services/administration_service.py:120-188 | The account update computes exactly the specified tables and reply |
| Administration.Directory.ChangeCourtRole | backend/app/services/administration_service.py:191-261 | The same of granting and revoking court roles |
| Administration.AdministratorRemains | backend/app/services/administration_service.py:128-142 | Once there is an active system administrator there always is one, whatever administrators do to each other |
| Administration.RolesFitAccounts | backend/app/services/administration_service.py:200-245 | Staff roles belong to clerk, judge or administrator accounts, and judge roles to judges |
| Administration.VersionsOnlyRise | backend/app/services/administration_service.py:100-112 | Accounts are never lost and their versions never fall |
| Administration.OneEditPerVersion | backend/app/services/administration_service.py:100-112 | In a run, one expected version of an account has at most one successful edit or role change, whatever happens in between |
| Administration.VerifiedIsCurrent | backend/app/services/administration_service.py:150-188 | In every reachable state a verified address is the account's own, each address has one account, and active accounts are bound to an identity |
| Administration.EditedIff | backend/app/services/administration_service.py:120-165 | An account is edited exactly by an active system administrator at the version seen, with an address of its own, not touching their own standing nor that of a role holder |
| Administration.EditedProfile | backend/app/services/administration_service.py:165-188 | The profile is as written; an address stays verified exactly with the same address and identity on an active account |
| Administration.RoleChangedIff | backend/app/services/administration_service.py:191-261 | A role changes exactly under an outranking administrator at the version seen, goes only to an active bound staff account, a judge's only to a judge, and no other grant changes |
| CommentScanners.ShellFindings | scripts/check_comments.py:108-132 | The shell scanner's loop ends and finds what the turn-by-turn scan finds |
| CommentScanners.ShellStripped | scripts/check_comments.py:108-132 | Cutting out every comment found and scanning again finds nothing; each is on the starting line plus the newlines before it |
| CommentScanners.TomlFindings | scripts/check_comments.py:211-239 | The TOML scanner's loop ends and finds what the turn-by-turn scan finds |
| CommentScanners.TomlStripped | scripts/check_comments.py:211-239 | The same strip-and-rescan and line-number law |
| CommentScanners.YamlCommentColumn | scripts/check_comments.py:135-172 | The YAML scanner's loops end at the specified column |
| CommentScanners.YamlStripped | scripts/check_comments.py:135-172 | Cutting a line at its comment column leaves a line with no comment |
| CommentGrammar.ShellFindsComments | scripts/check_comments.py:108-132 | However a shell text is read as plain characters, escapes, quotations and comments, the findings are exactly its comments |
| CommentGrammar.TomlFindsComments | scripts/check_comments.py:211-239 | The same of a TOML text |
| CommentGrammar.EveryTextReads | scripts/check_comments.py:108-132 | Every text can be read so |
| CommentGrammar.YamlPassesOnlyQuoted | scripts/check_comments.py:135-172 | Every # at the start of a line or after a blank that the scanner passes over is inside a quotation |
| CommentGrammar.YamlFindsFirst | scripts/check_comments.py:135-172 | With no quote before it, the first such # is the comment column |
| CommentGrammar.YamlQuotedScalar | scripts/check_comments.py:135-172 | Nothing inside a quoted scalar that starts the line is reported |

## Left out

- HTTP, request parsing, pagination, audit-log rows and notification wording: only guards and table changes are modelled.
- Required-document rules (`requirements_for_filing_type`, document codes) and PDF inspection: a submission takes their verdict as a parameter.
- Roles and case participation inside filing requests: the actor's assignments and the participation check are parameters of each request.
- The legacy filing type `motion` and rows older than retained receipts: runs create only the three types the API creates.
- Uploads and hard removals write storage rows that the filing tables do not carry: the object store models their keys, deletion jobs and rollbacks by themselves.
- Case numbers and the sealing of cases: a new case is known by the filing that opened it, and which cases are restricted is a parameter of the docket rules.
- Ordering and paging of docket entries: the listing is proved as a set of items over all pages.
- `inspect_files`, the audit report writer and case export: reads of stored bytes and output formats.
- SMTP, MIME, object storage clients, virus scanning, Keycloak tokens: outcomes are parameters.
- CSS and Mako comment scanners, the YAML block-scalar walk, frontend, search, favourites, rate limits and start-up checks.
- The database operator's bootstrap of the first administrator: account runs start from any tables that meet the account invariants.
- The normal form of a receipt's system and reference (case folding, spacing): a credit request carries both the raw text and its normal form.
- FilingRegistry.Registry.BatchReview: does not state the failure messages or the sorted order of the failed list, because they only word what the two lists say.
- PacketDesk.Desk.SendPacket: does not tell its refusals apart beyond malformed (422) and refused (409), because the reasons only word which check failed.
- Which quotes open a quoted scalar in YAML: outside the start of a line this follows the scanner's own rule.
- PaymentRegister.PeriodRegister: does not list the entries of a page or write the CSV, because they only order and format the events it counts; a zone name that does not resolve is refused before.
- EmailOutbox.Outbox.ReportDeliveryFailure: does not post the alert to the sender, because posting a notice is a step of its own.
