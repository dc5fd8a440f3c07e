# Supay: a verified model of its fiscal emission protocols

Supay issues invoices to a tax authority (SIAT). What it must never get wrong is which signed bytes
reach SIAT, when, and how many times. This project models the code that decides that, and proves what
it keeps over all runs.

**Single emission** (`Emission*.dfy`). One invoice, any number of attempts. Every write to a backend is a
step of its own that may be refused, or take effect and lose its answer; an attempt may crash anywhere
and may act on a read from before its claim; the reaper frees rows. `EmissionSafety` proves the
invariant step by step, `EmissionTheorems` reads the promises off it, `EmissionProcess` is
`ProcessEmission` itself as a sequence of effects with arbitrary other actors between any two,
`EmissionRuns` says what runs without faults come to, and where a step leads fault by fault,
`EmissionRow` says what the row keeps of a document that was sent, `EmissionPreparation` when a kept
preparation is backed by its files, `EmissionDiscards` what can go out after a discard, and
`EmissionCounterexamples` shows where the promises end.

**Documents at rest** (`ObjectKeys`, `Documents`, `Files`, `FileService`). Create-if-absent objects,
one metadata row per (company, invoice, kind), repair and compensation; on values for the protocol, and
on live readers, hashes, maps and objects for the code.

**Batches** (`BatchSelection`, `Grouping`, `SectorProfiles`, `BatchPreparation`, `BatchIdentity`,
`LotArchive`, `BatchPayloads`, `BatchDocuments`, `BatchReservation`, `BatchSend`, `BatchProtocol`,
`BatchWrites`, `BatchRuns`, `BatchSafety`, `BatchVerdicts`, `BatchFiles`). Selection and order, grouping under a limit, the adapter's
identity checks, packing and recovery, storage with compensation, the reservation's checks, the send loop,
and the protocol over time of reservations, sends, verdicts, validations, single emissions,
reconciliations, the reaper and the documents at rest.
`OfflineHandover` joins the two halves: what a package gets from an OFFLINE invoice, and when a bulk batch
may take one.

**Queue control** (`RateLimiter`, `CircuitBreaker`, `Worker`, `WorkerPool`, `RetryPolicy`). Token bucket
over exact reals and integer nanoseconds, circuit breaker against its event history, the worker that
drives both, many workers at once, and the retry delay in wrapping 64-bit arithmetic.

## Assumptions

- The reaper meets only dead attempts: its stale limit is ten minutes
  (`backend/internal/app/reaper.go:17`). `LiveReaperBreaksExclusion` shows that this is needed.
- Metadata is unique per (company, invoice, kind) and keyed by it
  (`backend/internal/repository/database/migrations/000016_invoice_files.up.sql`).
- `StorePreparedEmission`, `TransitionStatus`, `ReserveBatch` and `UpdateBatch` are atomic, as their
  single statements and transactions make them.
- SHA-256 is injective and gzip and base64 give back what they were given: `Documents.dfy` makes them
  free constructors. A preparation signed by the adapter is `Packed`: its archive is that of its XML.
- The error type of a preparation failure is private to the use case, so no adapter returns it.
- The database keeps sectors positive (`chk_invoices_codes` in
  `backend/internal/repository/database/migrations/000010_fiscal_data_integrity.up.sql:229-231`) and refuses a
  NIT of spaces (`chk_tenants_nit_not_blank` in `000002_normalize_structure.up.sql:261-262`, same directory).
- Invoice numbers are distinct per point of sale where `BatchIdentity` says so.

## Findings

- A discard counts from the removal of its metadata row. If that succeeds and the object's removal
  fails, the row still holds the old preparation, and an attempt that read the invoice before it was
  prepared can send a second document (`HalfDiscardLetsASecondDocumentOut`). That takes such an attempt
  (`SecondDocumentIffStaleReader`). Its CUF differs if the CUFD was
  renewed in between: an attempt without a preparation asks for the current one
  (`backend/internal/usecase/emission.go:83-87`).
- A prepared row is not always backed by its files: a lost answer to `StorePreparedEmission` makes the attempt
  take them back (`LostStoreUnbacks`), and a discard removes them first (`DiscardUnbacks`). Without those two
  it always is (`PreparedIsBacked`), and each of them can always leave it without (`UnbacksIffUntidy`).
- An invoice whose document was sent is closed to bulk batches (`SentIsClosedToBulk`) until a discard completes.
  If the offline document then cannot be made, it is PENDING without a CUF, and a bulk batch may take it
  although SIAT may hold the first document (`DiscardOpensToBulk`).
- A package that SIAT settles in its first answer (908, or 902) can never be recorded: the transition
  table has no move from OFFLINE to a final status. It stays SENDING for good
  (`ImmediateVerdictIsLost`). Bulk batches are not affected (`SendVerdictIsWritable`).
- A reservation that is committed but answered with an error leaves a reserved batch without the documents its
  call created (`LostReservationDropsDocuments`), and calls that share a document can take it from each other
  (`SharedDocumentIsTakenBack`). Otherwise a batch has its documents from its reservation on
  (`ReservedIsAtRest`, `DropsIffUntidy`).
- The comment on `CircuitBreaker` promises exactly one half-open probe
  (`backend/internal/emissionqueue/circuit_breaker.go:14-15`). A call admitted before the circuit opened
  can report late and clear the flag of a probe that is still out, and then a second one can follow
  (`StrayLetsASecondProbeOut`). The code is followed, and `TwoProbesIffStray` is the exact condition.
- A NIT made of white space other than spaces, a tab say, passes registration
  (`backend/internal/usecase/company_usecase.go:73`) and the database, but no package of its company passes the
  adapter: the default NIT is filled into the lot, not into documents with an issued XML
  (`TabNitIsStoredAndRefused`). With any other stored NIT they pass (`PackageBatchesPass`).
- `CantidadFacturas` also counts batches that are reported UNKNOWN because their result could not be
  written (`SuccessCountsEverything`).
- A caller that retries exactly after the wait it was given may be refused once more, by truncation
  (`RetryIsAdmitted`).
- From a base of 2^34 ns on, the retry delay can wrap to zero (`LargeBaseRetriesAtOnce`, `ExactIff`).

## Model

| member | source | states |
|---|---|---|
| EmissionSafety.StepKeeps | backend/internal/usecase/emission.go:57-178 | every step of every attempt, of a crash and of the reaper keeps the invariant: one owner of the claim; what was last sent since a discard is at rest; a final status is documented; an attempt sends once |
| EmissionTheorems.SameDocumentBetweenDiscards | backend/internal/usecase/emission_pipeline.go:22-69 | in every interleaving, two dispatches of an invoice with no discard between them carry the same CUF and byte-identical XML, and come from different attempts |
| EmissionTheorems.DurableAtDispatch | backend/internal/usecase/emission_pipeline.go:51-68 | at the instant of a dispatch the bytes sent are in the object store, in the metadata row and, packed, in the SENDING invoice row; the next attempt restores exactly them iff they are within 16 MiB |
| EmissionTheorems.LogGrowsBySending | backend/internal/usecase/emission_pipeline.go:64-68 | a dispatch is logged by exactly the steps that hand over a stored document |
| EmissionTheorems.OfflineOnlyAfterDispatch | backend/internal/usecase/emission_contingency.go:18-22 | only an attempt that dispatched takes the invoice offline: one that fails earlier never does |
| EmissionTheorems.OfflineWasDispatched | backend/internal/usecase/emission_contingency.go:44-112 | an OFFLINE invoice was dispatched before |
| EmissionTheorems.OutcomeIsDocumented | backend/internal/usecase/emission.go:131-147 | an invoice left ACCEPTED, OBSERVED, REJECTED or OFFLINE has, from then on, a non-blank XML object under its CUF whose digest is in the metadata row and in the invoice row |
| EmissionTheorems.OutcomeIsStable | backend/internal/usecase/emission.go:99-105 | no late step of anyone touches an invoice, or its files, once its outcome is recorded |
| EmissionTheorems.EveryChangeIsALegalMove | backend/internal/repository/postgres/invoice_repo.go:171-216 | every status change of the protocol is a move of the invoice state machine |
| EmissionSafety.RestoredIsPacked | backend/internal/usecase/emission_pipeline.go:100-128 | a preparation taken back from the row is again a document with the archive and hash of its own bytes |
| EmissionSafety.DispatchKeeps | backend/internal/usecase/emission_pipeline.go:67-68 | a dispatch repeats the document at rest, whatever was sent before by other attempts |
| EmissionSafety.DiscardRowKeeps | backend/internal/usecase/emission_pipeline.go:132-154 | removing the metadata of an online preparation keeps the invariant under every fault |
| EmissionRow.OnlyADiscardFrees | backend/internal/usecase/emission_pipeline.go:132-154 | what was last sent stops binding the invoice at exactly one kind of step: an effective removal of the metadata |
| EmissionRow.StepKeepsRow | backend/internal/usecase/emission.go:57-178 | every step keeps: the row carries what was sent since the last discard; from the dispatch to the clear the owner's copy is what the row holds; every reading is empty or whole |
| EmissionRow.RowKeepsWhatWasSent | backend/internal/usecase/emission_pipeline.go:98-128 | in every run the row carries the CUF of what was sent since the last discard, and while it is PENDING or SENDING whoever reads it restores exactly the bytes that were sent (within 16 MiB) |
| EmissionRow.RowIsEmptyOrWhole | backend/internal/usecase/emission_pipeline.go:98-128 | in every run a PENDING or SENDING row holds no preparation and no CUF, or a whole one under a CUF that makes a key: of the five errors of reading a preparation back only the size can occur |
| EmissionSafety.GoOfflineKeeps | backend/internal/usecase/emission_contingency.go:75-112 | an invoice goes OFFLINE only with its offline XML at rest and its hash on the row |
| EmissionSafety.StoreKeeps | backend/internal/repository/postgres/emission_preparation.go:13-24 | storing a preparation, refused or not, leaves nothing sent unprotected |
| EmissionCounterexamples.HalfDiscardLetsASecondDocumentOut | backend/internal/usecase/emission_pipeline.go:138-153 | for any two documents of the invoice there is a run that never clears the row and still dispatches both: a discard that removes the metadata row but not the object, then an attempt with a stale read |
| EmissionDiscards.SecondDocumentIffStaleReader | backend/internal/usecase/emission_pipeline.go:138-153 | the exact condition: after the first removal of metadata in a run that lost no store's answer, a document other than the one sent can go out without a clear iff an attempt that read the invoice unprepared is waiting |
| EmissionDiscards.CurrentReadersRepeat | backend/internal/usecase/emission_pipeline.go:132-154 | after any removal, if every waiting attempt read what the row holds, every run without a clear dispatches nothing but the discarded document |
| EmissionDiscards.StaleReaderSendsAnother | backend/internal/usecase/emission.go:83-95 | after any removal, reported or not, an attempt that read the invoice unprepared can send any document whose key is free |
| EmissionCounterexamples.LiveReaperBreaksExclusion | backend/internal/repository/postgres/invoice_repo.go:264-303 | if the reaper released a live claim, a second attempt could claim the invoice beside the first |
| EmissionErrors.WrappingKeepsOutage | backend/internal/usecase/emission_contingency.go:23-41 | wrapping a connectivity error in text and causes hides it iff a cancellation or a preparation failure is among them |
| EmissionErrors.OutageIff | backend/internal/usecase/emission_contingency.go:18-42 | an error is an outage iff it is no cancellation and no preparation failure and is a deadline, an EOF, an unexpected EOF or a network error, or contains one of the six texts in any letter case |
| EmissionRuns.OutageEndsOffline | backend/internal/usecase/emission.go:117-124 | for every outage after a dispatch, the run without other faults ends OFFLINE with the offline document on the row and alone at rest |
| EmissionRuns.OtherErrorsRollBack | backend/internal/usecase/emission.go:117-130 | for every other error, or an adapter that cannot sign offline, it ends PENDING, the document still at rest and on the row |
| EmissionRuns.FailedSigningRollsBack | backend/internal/usecase/emission_pipeline.go:41-46 | a signing that fails, with an outage or any other error, ends PENDING with nothing stored or sent |
| EmissionRuns.AnswerEndsRecorded | backend/internal/usecase/emission.go:131-154 | for every answer, the run without faults ends REJECTED unless acknowledged, OBSERVED at code 904, ACCEPTED otherwise, under the CUF and hash that were sent |
| EmissionRuns.NextAttemptResends | backend/internal/usecase/emission_pipeline.go:98-128 | if the attempt dies unanswered, the next one dispatches the very same CUF and bytes, whatever it would sign itself |
| EmissionRuns.ThreeTries | backend/internal/usecase/emission_persistence.go:45-80 | a result that fails to be written twice is written by the third try, and not tried a fourth time |
| EmissionRuns.AfterAnError | backend/internal/usecase/emission.go:117-126 | where an error leads: rollback, contingency with something to discard, or contingency at once |
| EmissionRuns.AfterLookingUp | backend/internal/usecase/emission_pipeline.go:142-150 | where the look at the online files leads: missing files are no obstacle, a failure to read is |
| EmissionRuns.AfterStoring | backend/internal/usecase/emission_pipeline.go:56-63 | where a store leads under every fault, and what it writes |
| EmissionRuns.AfterPreparing | backend/internal/usecase/emission_pipeline.go:37-47 | what an attempt goes on with: the kept preparation, or else the one it signs, packed; any failure is a preparation failure |
| EmissionRuns.RestoresIff | backend/internal/usecase/emission_pipeline.go:100-128 | a kept preparation reads back iff it has CUF, base64, matching hash, gzip, and one byte to 16 MiB of content |
| EmissionRuns.FailedCallFreesTheInvoice | backend/internal/usecase/emission_contingency.go:56-112 | wherever a call of the contingency fails without effect, it stops: the invoice is PENDING again and nothing else is touched |
| EmissionRuns.CompensationLeavesNothing | backend/internal/usecase/emission_pipeline.go:52-63 | a preparation this attempt created and could not store is taken back, row and object, and the invoice is PENDING again, exactly as before |
| EmissionRuns.UnregisteredLeavesNothing | backend/internal/usecase/invoice_files.go:87-96 | so is a document whose metadata row cannot be written |
| EmissionRuns.AnswerNotKeptStaysSending | backend/internal/usecase/emission.go:138-141 | an answer whose XML cannot be kept is not recorded: the invoice stays SENDING with what was sent |
| Emission.MoveRowIff | backend/internal/repository/postgres/invoice_repo.go:171-216 | a transition is made iff it is legal, not refused, and the row still has the status it starts from; reported iff no answer was lost; what it writes |
| EmissionPreparation.PreparedIsBacked | backend/internal/usecase/emission_pipeline.go:22-69 | in every run without a lost answer to storing a preparation this attempt created files for, and without a discard, a prepared row has its metadata and object, and they hold exactly its document |
| EmissionPreparation.UnbacksIffUntidy | backend/internal/usecase/emission_pipeline.go:51-63 | the exact condition: after any such run, a step can lead, with no further one of the two, to a prepared row without its files iff it is one of the two |
| EmissionPreparation.LostStoreUnbacks | backend/internal/usecase/emission_pipeline.go:56-62 | in any state of the protocol, a store that takes effect and loses its answer, by an attempt that created the files, followed by its compensation, leaves the row prepared without its metadata |
| EmissionPreparation.DiscardUnbacks | backend/internal/usecase/emission_pipeline.go:138-153 | in any state of the protocol, an effective removal by a discard leaves the row prepared without its metadata at once |
| EmissionPreparation.LostStoreHappens | backend/internal/usecase/emission_pipeline.go:56-62 | for any document, a run with neither reaches the store whose answer can be lost |
| EmissionPreparation.DiscardHappens | backend/internal/usecase/emission_pipeline.go:138-153 | for any document, a run with neither sends it and reaches the removal of its metadata |
| EmissionProcess.OthersSpareTheOwner | backend/internal/usecase/emission.go:88-95 | while an attempt holds the claim, no step of any other attempt, nor of the reaper, changes the row, the files or the log |
| EmissionProcess.InvoiceUsecase.ProcessEmission | backend/internal/usecase/emission.go:57-178 | run one effect at a time among arbitrary others: an emitted reply means the row holds that answered status and the bytes were sent; an offline reply means OFFLINE, sent, and an adapter that can sign offline; a failure is a preparation error iff nothing was sent; a conflict means the row has left SENDING; SENDING at the read is in progress, and not-pending iff it was neither PENDING nor SENDING |
| EmissionProcess.InvoiceUsecase.DecideContingency | backend/internal/usecase/emission_contingency.go:18-42 | the contingency is entered iff the adapter can sign offline and the error is one of the outages, cause by cause and text by text |
| EmissionProcess.InvoiceUsecase.DispatchInvoiceEmission | backend/internal/usecase/emission_pipeline.go:51-68 | from a restored or signed document on: an answer means it was sent and leaves exactly that answer to confirm; an error leaves the attempt failed with exactly that error, a preparation error iff nothing was sent |
| EmissionProcess.InvoiceUsecase.SendBytes | backend/internal/usecase/emission_pipeline.go:67-68 | what is sent was at rest, and kept packed in the row, before it was sent |
| EmissionProcess.InvoiceUsecase.SaveWithStatus | backend/internal/usecase/invoice_files.go:37-99 | the save of any of the three stages, others free to act between put, registration and withdrawal: where it leaves the attempt when it succeeds and when it fails |
| EmissionProcess.InvoiceUsecase.DiscardOnlinePreparation | backend/internal/usecase/emission_pipeline.go:132-154 | read, remove the row, remove the object, clear the preparation; the first failure rolls back |
| EmissionProcess.InvoiceUsecase.ProcessOfflineContingency | backend/internal/usecase/emission_contingency.go:44-123 | success means the row is OFFLINE; any failure leaves the attempt to roll back |
| EmissionProcess.InvoiceUsecase.PersistResult | backend/internal/usecase/emission_persistence.go:45-80 | at most three tries: recorded, conflict, or given up |
| OfflineHandover.OfflineInvoicePassesPackageCheck | backend/internal/usecase/siat_batch_preparation.go:31-46 | every invoice the protocol left OFFLINE passes, at any later time, the package step's check of CUF and stored XML, and the package gets exactly the stored bytes |
| OfflineHandover.SentIsClosedToBulk | backend/internal/repository/postgres/sent_package_repo.go:265-276 | in every run, an invoice sent by itself and not discarded since carries the CUF it was sent under, and no bulk batch can reserve it, in whatever state the batches are |
| OfflineHandover.OpenToBulkIffUnprepared | backend/internal/repository/postgres/sent_package_repo.go:265-276 | in every run, a bulk batch may take the invoice iff it is PENDING and its row keeps no preparation |
| OfflineHandover.DiscardOpensToBulk | backend/internal/usecase/emission_contingency.go:44-123 | for any document there is a run in which it is sent, discarded and cleared, the offline document cannot be made, and the invoice is open to bulk batches |
| InvoiceState.AtMostFourMoves | backend/internal/domain/invoice_state.go:48-64 | in every run from PENDING, apart from claim/release and cancel/revert, at most four transitions occur |
| InvoiceState.FourMovesHappen | backend/internal/domain/invoice_state.go:48-64 | four is reached |
| InvoiceState.NoWayBack | backend/internal/domain/invoice_state.go:48-64 | an invoice that left PENDING and SENDING never returns; REJECTED is final |
| InvoiceState.CancelledOnlyFromAccepted | backend/internal/domain/invoice_state.go:62-63 | in every run CANCELLED is entered only from ACCEPTED |
| InvoiceState.EmissionOutcomeIsLegal | backend/internal/usecase/emission_pipeline.go:88-96 | every emission outcome is a legal move from SENDING, and from which other statuses it is one; REJECTED iff SIAT refused, OBSERVED iff it accepted with code 904 |
| InvoiceState.MovesAreListed | backend/internal/domain/invoice_state.go:48-64 | the 26 legal moves, one by one, and no other |
| InvoiceState.RefusedMove | backend/internal/domain/invoice_state.go:31-42 | why a move is refused: an unknown status first, then a missing reason |
| InvoiceState.ReconciliationIsLegal | backend/internal/usecase/invoice_status.go:47-56 | which of SIAT's codes a reconciliation takes over and from which status; an OFFLINE or PENDING invoice is reached by none |
| ObjectKeys.AcceptedKeysAreValid | backend/internal/domain/object_storage.go:50-56 | the key built from accepted parts always passes the key check |
| ObjectKeys.KeyInjective | backend/internal/domain/object_storage.go:50-56 | two invoices, CUFs or kinds never share a key |
| ObjectKeys.SidecarsNeverCollide | backend/internal/storage/object_local.go:104-113 | no invoice key is the .meta sidecar of an invoice key |
| ObjectKeys.ValidIffPartsPortable | backend/internal/domain/object_storage.go:34-44 | the key check is exactly: no backslash, no NUL, every slash-separated part portable |
| ObjectKeys.IdCharsAreListed | backend/internal/domain/object_storage.go:46-47 | an identifier has ASCII letters, digits, underscore and hyphen, and nothing else |
| Files.SaveNeverOverwrites | backend/internal/usecase/invoice_files.go:37-99 | whatever fails, a stored object or row is never changed, and only this document is added |
| Files.SavedMeansAtRest | backend/internal/usecase/invoice_files.go:37-99 | success means the object holds exactly the content and the row agrees; created iff the object was absent |
| Files.SavedEffect | backend/internal/usecase/invoice_files.go:54-98 | the whole effect of a success: object and row when created, at most the missing row otherwise |
| Files.SavedIff | backend/internal/usecase/invoice_files.go:37-99 | the exact condition of success under every fault: key, ownership, put and size, and either nothing there and a row that is written, or the same content with a row that matches or is repaired |
| Files.FirstSaveStores | backend/internal/usecase/invoice_files.go:87-98 | a first save without faults leaves the object and a row with key text, digest, size and content type, and reports created |
| Files.SaveRepairsTheRow | backend/internal/usecase/invoice_files.go:76-81 | the same content without a row gets its row, and is not reported as created |
| Files.FailedFirstSave | backend/internal/usecase/invoice_files.go:85-97 | what a failed first save leaves of object and row under every fault, and with which error |
| Files.FailedSecondSave | backend/internal/usecase/invoice_files.go:64-83 | a failed save over an existing object changes no object; its error under every fault |
| Files.ReadFileIff | backend/internal/usecase/invoice_files.go:113-162 | when a read is the bytes, missing, or an error |
| Files.RemoveTakes | backend/internal/usecase/invoice_files.go:101-111 | what a removal takes away under every fault |
| Files.SavedIsReadBack | backend/internal/usecase/invoice_files.go:113-128 | what was saved is what is read back, whatever is saved afterwards and however that fails |
| Files.SaveTwice | backend/internal/usecase/invoice_files.go:72-75 | repeating a successful save changes nothing and reports not created |
| Files.SaveAtRest | backend/internal/usecase/invoice_files.go:72-75 | saving a document already at rest leaves no trace |
| Files.SecondDocumentRefused | backend/internal/usecase/invoice_files.go:68-83 | a document at rest admits no other CUF and no other bytes for the invoice |
| Files.FailedSaveLeavesNoTrace | backend/internal/usecase/invoice_files.go:85-97 | a failed save whose backend calls report truthfully, and whose cleanup works, changes nothing |
| Files.RemoveUndoesSave | backend/internal/usecase/invoice_files.go:101-111 | compensating a creating save restores objects and rows exactly |
| FileService.InvoiceFileService.SaveWithStatus | backend/internal/usecase/invoice_files.go:37-99 | on a live reader, hash, store and table the call is the operation of Files.dfy, whatever part of the reader the backend consumed before a collision |
| FileService.InvoiceFileService.AcceptExisting | backend/internal/usecase/invoice_files.go:64-83 | an existing object is accepted only with the same digest and size, repairing a missing row |
| FileService.InvoiceFileService.RemoveCreated | backend/internal/usecase/invoice_files.go:101-111 | row first, then object, and only the row that points at it |
| FileService.InvoiceFileService.ReadAll | backend/internal/usecase/invoice_files.go:113-162 | missing, unreadable, or the bytes the row points at |
| FileService.ObjectStorage.Put | backend/internal/storage/object_memory.go:26-48 | create if absent; bytes fed to the hash plus bytes left in the reader are the input |
| FileService.ObjectStorage.Delete | backend/internal/storage/object_memory.go:73-85 | object and its info go together |
| FileService.Drain | backend/internal/usecase/invoice_files.go:56-62 | copying the rest of the reader completes the hash of the whole input |
| BatchDocuments.BatchIsAllOrNothing | backend/internal/usecase/siat_batch_documents.go:12-53 | with truthful backends and working deletions: success stores every document with its prepared hash; any failure, or cleaning up a success, leaves the objects exactly as before, earlier rows intact, and new rows only for objects that were already there |
| BatchDocuments.AllOrNothing | backend/internal/usecase/siat_batch_documents.go:16-37 | the same from any point of the loop |
| BatchDocuments.PersistedMeansAllAtRest | backend/internal/usecase/siat_batch_documents.go:17-37 | success, under any faults: every document of the batch is at rest with the hash it was prepared with |
| BatchDocuments.NewBatchIsStored | backend/internal/usecase/siat_batch_documents.go:12-38 | if nothing fails, a batch of new documents is stored and every one of them reported as created, in order, with its own row |
| BatchDocuments.OneDocumentPerInvoice | backend/internal/usecase/siat_batch_documents.go:17-21 | a batch that names an invoice twice with different documents is never persisted |
| BatchDocuments.AtRestPersistsNothing | backend/internal/usecase/siat_batch_documents.go:33-36 | documents already at rest create nothing, so nothing of them is removed if the reservation fails |
| BatchDocuments.PersistBatchDocuments | backend/internal/usecase/siat_batch_documents.go:12-38 | the loop on live files equals the specification the lemmas are about |
| BatchDocuments.CleanupBatchDocuments | backend/internal/usecase/siat_batch_documents.go:40-53 | every created file gets its compensation, failures notwithstanding |
| BatchSelection.SelectBatchInvoices | backend/internal/usecase/siat_batch_selection.go:30-86 | succeeds iff the identifiers are non-blank, distinct and all found and every invoice passes; returns the same invoices by number and identifier; all issued OFFLINE within the event, or all PENDING without a CUF; each error comes from the first check that fails |
| BatchSelection.SelectedIff | backend/internal/usecase/siat_batch_selection.go:58-77 | what selection asks of an invoice, for a package and for a bulk batch, field by field |
| BatchSelection.RefusedFor | backend/internal/usecase/siat_batch_selection.go:58-77 | why an invoice is refused, the first reason winning |
| BatchSelection.TextLessIff | backend/internal/usecase/siat_batch_selection.go:79-84 | identifiers are ordered by their first differing code unit, a proper prefix first |
| BatchSelection.OrderIsDetermined | backend/internal/usecase/siat_batch_selection.go:78-84 | the order by number and identifier leaves no choice: any ordered permutation is the same list |
| BatchReservation.BatchesAreReservable | backend/internal/repository/postgres/sent_package_repo.go:265-285 | every invoice of every batch built from selected invoices, if unchanged, passes every check the reservation makes on it: owner, event, status, reception code, identity, sector, type, modality, layout and CUF |
| BatchReservation.BatchIdsAreDistinct | backend/internal/repository/postgres/sent_package_repo.go:212-243 | a batch announces as many identifiers as it has, at least one, all distinct |
| BatchReservation.SelectedBatchesAreTaken | backend/internal/repository/postgres/sent_package_repo.go:242-276 | if the selected invoices have not changed and no active batch has any of them, the protocol's reservation of every batch built from them goes through |
| BatchWrites.ReservesIff | backend/internal/repository/postgres/sent_package_repo.go:211-293 | the exact condition of a reservation: distinct, named, known invoices of the right status, not received, and in no batch that was not rejected |
| BatchWrites.ReservationWrites | backend/internal/repository/postgres/sent_package_repo.go:294-340 | what a reservation writes: the batch, and bulk invoices SENDING under the CUFs of their documents; nothing else |
| BatchWrites.UpdatesIff | backend/internal/repository/postgres/sent_package_repo.go:346-464 | the exact condition under which a verdict is written: reception code kept, no way back, nothing new once settled, and every open invoice can take its own |
| BatchWrites.UpdateWrites | backend/internal/repository/postgres/sent_package_repo.go:346-464 | what it writes: status and reception of the batch, result and receipt of every open invoice, and nothing else |
| BatchWrites.ReceivedIsClosed | backend/internal/repository/postgres/sent_package_repo.go:418-448 | an invoice that took a result with a reception code can never be reserved from that state |
| BatchPreparation.PrepareInvoiceBatches | backend/internal/usecase/siat_batch_preparation.go:14-117 | the loop with its map from key to open batch builds exactly the obvious grouping of the invoices' documents; an error is that of the first invoice that has one |
| BatchPreparation.PackageXmlIsTheHashedXml | backend/internal/usecase/siat_batch_preparation.go:38-45 | what goes into a package is the stored XML that the invoice row was hashed from |
| BatchPreparation.DocumentBelongs | backend/internal/usecase/siat_batch_preparation.go:95-114 | document j of a batch is the document of invoice InvoiceIDs[j], made under the batch's key |
| BatchPreparation.BatchKeepsOrder | backend/internal/usecase/siat_batch_preparation.go:111-113 | documents of a batch keep the order of their invoices, so no invoice is in a batch twice |
| BatchPreparation.BatchesAreFewAndFull | backend/internal/usecase/siat_batch_preparation.go:18-100 | per key, n invoices make n/1000 bulk batches or n/500 packages, rounded up, in input order, all full but the last; every batch has 1 to 1000, or 1 to 500, documents |
| BatchPreparation.DocumentIff | backend/internal/usecase/siat_batch_preparation.go:28-83 | the exact condition under which an invoice's document is made, check by check |
| BatchPreparation.DocumentFields | backend/internal/usecase/siat_batch_preparation.go:57-93 | where each field of a document comes from |
| BatchPreparation.PackageFields | backend/internal/usecase/siat_batch_preparation.go:18-107 | what a batch says of itself: emission type 3 or 2, its key, today's CUFD, the event |
| BatchPreparation.ItemsIff | backend/internal/usecase/siat_batch_preparation.go:28-100 | the preparation succeeds iff every document can be made |
| BatchPreparation.BatchesPartitionTheInvoices | backend/internal/usecase/siat_batch_preparation.go:27-116 | every invoice is in exactly one batch, and batches open in invoice order |
| Grouping.GroupsHoldTheirValues | backend/internal/usecase/siat_batch_preparation.go:95-114 | per key the groups, concatenated, are the key's values in input order |
| Grouping.PackedIsFewest | backend/internal/usecase/siat_batch_preparation.go:97-97 | no grouping within the limit has fewer groups |
| Grouping.PackedIsUnique | backend/internal/usecase/siat_batch_preparation.go:97-97 | and only one has all groups full but the last |
| Grouping.GroupsPartition | backend/internal/usecase/siat_batch_preparation.go:111-113 | all groups together hold every value as often as it was given |
| Grouping.LastWithPlace | backend/internal/usecase/siat_batch_preparation.go:96-110 | why the map may point each key at its last batch only |
| SectorProfiles.LookupIsCanonical | backend/internal/domain/fiscal/sectores.go:251-296 | looking up the layout a profile answered with finds that profile again, and its resolved type resolves to itself |
| SectorProfiles.FoundIff | backend/internal/domain/fiscal/sectores.go:251-268 | which profile is found: sector 1 for none, the first of the sector without a layout, the exact one with it, none for sector 24 without one |
| SectorProfiles.TypeResolves | backend/internal/domain/fiscal/sectores.go:286-296 | a requested type is kept; an unset one is the profile's, or 1 |
| BatchIdentity.ValidarIdentidadLote | backend/internal/adapters/siat/batch_preparation.go:20-46 | no error iff the lot is uniform and its numbers distinct; then every shared field, branch and point of sale included, is the lot's; the first offender is named, with the check it fails |
| BatchIdentity.InheritsWhatIsMissing | backend/internal/adapters/siat/paquetes.go:266-310 | a field a document has stays, one it lacks is the lot's; a document with an issued XML takes only system and environment |
| BatchIdentity.IdentityIff | backend/internal/adapters/siat/sync/identity.go:29-46 | the configured identity refuses exactly another environment, system or tax number, and fills in what is missing |
| BatchIdentity.NormalizedBulk | backend/internal/adapters/siat/masiva.go:222-266 | every document of a bulk lot inherits what it lacks |
| BatchIdentity.NormalizedPackage | backend/internal/adapters/siat/paquetes.go:266-315 | a document that carries an issued XML inherits only system and environment |
| BatchIdentity.IdentityIsStable | backend/internal/adapters/siat/sync/identity.go:29-47 | identity, once resolved from the configuration, is accepted unchanged when it is applied again to the documents of the lot |
| BatchIdentity.HasPersistedXml | backend/internal/adapters/siat/paquetes.go:439-446 | some document carries an issued XML |
| BatchIdentity.BulkBatchesPass | backend/internal/adapters/siat/masiva.go:336-364 | every bulk batch built from invoices with distinct numbers passes the adapter's size and identity checks |
| BatchIdentity.PackageBatchesPassIffNit | backend/internal/adapters/siat/paquetes.go:385-411 | every such package batch passes them iff the company's NIT is not blank |
| BatchIdentity.PersistedIdentityNeedsASector | backend/internal/adapters/siat/paquetes.go:451-460 | the identity half of the stored-XML check passes iff, besides, the invoices were stored with a positive sector |
| BatchIdentity.PackageBatchesPass | backend/internal/adapters/siat/paquetes.go:385-424 | with a NIT that is not blank and the positive sectors the database demands, every package batch passes the size limit, the identity check and, document by document, the identity half of the stored-XML check |
| BatchIdentity.TabNitIsStoredAndRefused | backend/internal/adapters/siat/paquetes.go:279-283 | a company whose NIT is a tab, which registration and database let in, gets its packages built and refused |
| LotArchive.PackLot | backend/internal/adapters/siat/batch/packer.go:27-48 | succeeds iff there are documents and none is empty; entries are regular, named in order, byte for byte |
| LotArchive.ExactIff | backend/internal/adapters/siat/batch_preparation.go:86-126 | what recovery accepts: every entry named factura_1.xml, factura_2.xml and so on, regular and not empty, and nothing after them |
| LotArchive.EntryNamesDiffer | backend/internal/adapters/siat/batch/packer.go:37-37 | no two documents of a lot share an entry name |
| LotArchive.RecuperarDocumentosLote | backend/internal/adapters/siat/batch_preparation.go:86-126 | succeeds iff the archive is exactly this lot; document j then is entry j under CUF j with its own archive; on failure exactly a prefix has been rewritten |
| LotArchive.PrepararXmlLote | backend/internal/adapters/siat/batch_preparation.go:130-165 | persisted XML and CUF pass through untouched; entry j is document j's XML |
| LotArchive.PrepararLote | backend/internal/adapters/siat/masiva.go:76-130 | recovery never fails on what was just packed and changes no XML: the audited documents are those sent |
| BatchPayloads.DocumentosPreparados | backend/internal/adapters/siat/batch_preparation.go:70-81 | the adapter's documents over the caller's numbers |
| BatchPayloads.AuditDocuments | backend/internal/usecase/siat_batch_preparation.go:144-160 | succeeds iff the lot is complete; every document is stored with the digest of its own XML |
| BatchPayloads.PreparePackageDocuments | backend/internal/usecase/siat_batch_preparation.go:121-163 | for a package, entry j of the archive, the audited XML j and the stored XML of its invoice are the same bytes |
| BatchSend.SendInvoiceBatches | backend/internal/usecase/siat_batches.go:91-168 | one entry per batch in order; overall success iff every entry is PENDING_VALIDATION or ACCEPTED; the count is that of acknowledged batches |
| BatchSend.SendOne | backend/internal/usecase/siat_batches.go:115-160 | ACCEPTED iff written, acknowledged with a reception code and 908; PENDING_VALIDATION iff the same with another code; REJECTED iff written, not acknowledged and 902; UNKNOWN otherwise; failed and counted accordingly |
| BatchSend.VerdictByCode | backend/internal/usecase/siat_batches.go:122-157 | which answer becomes which status of the batch and of its invoices, and which reception code |
| BatchSend.ValidationByCode | backend/internal/usecase/siat_batch_validation.go:80-98 | a validation accepts iff 908 acknowledged, rejects iff 902 on a batch not accepted before, and otherwise changes nothing |
| BatchRuns.BulkIsSent | backend/internal/usecase/siat_batches.go:101-121 | a bulk batch from reservation to send, without faults: its invoices, its record, the log |
| BatchRuns.AcknowledgedIsPending | backend/internal/usecase/siat_batches.go:133-147 | acknowledged with another code than 908: the batch waits for its validation, its invoices are SENT and received |
| BatchRuns.AcceptedAtOnce | backend/internal/usecase/siat_batches.go:133-147 | 908 settles a bulk batch and its invoices at once |
| BatchRuns.RejectedAtOnce | backend/internal/usecase/siat_batches.go:148-152 | 902 rejects a bulk batch and its invoices |
| BatchRuns.UnansweredIsUnknown | backend/internal/usecase/siat_batches.go:122-128 | no answer, or a useless one, leaves the batch UNKNOWN and its invoices as they were |
| BatchRuns.ValidationSettles | backend/internal/usecase/siat_batch_validation.go:43-106 | a later validation settles the batch and its SENT invoices by 908 or 902, and by nothing else |
| BatchRuns.NothingHappens | backend/internal/usecase/siat_batch_validation.go:63-86 | a validation without a reception code or without an answer changes nothing, nor does a call that stops |
| BatchRuns.OthersMove | backend/internal/repository/postgres/invoice_repo.go:171-303 | what single emissions, the reaper and reconciliations do to an invoice beside the batches |
| BatchSend.SuccessCountsEverything | backend/internal/usecase/siat_batches.go:140-146 | the count is complete iff everything was acknowledged, which is weaker than overall success by the failed writes |
| BatchSafety.StepKeeps | backend/internal/repository/postgres/sent_package_repo.go:211-465 | every step of sends, validations, single emissions, reconciliations and the reaper keeps the invariant: an invoice is in at most one batch ever, never PENDING again in it, never claimed beside it |
| BatchSafety.SentAtMostOnce | backend/internal/usecase/siat_batches.go:91-167 | over any history, with lost answers and failed writes, SIAT is sent each invoice in at most one batch, once |
| BatchSafety.SentOnlyAfterReserved | backend/internal/usecase/siat_batches.go:108-121 | and only after that batch was reserved with exactly those invoices |
| BatchSafety.OneWorkerPerInvoice | backend/internal/repository/postgres/sent_package_repo.go:253-304 | no invoice is worked on by a batch and a single emission at once, nor by two batches |
| BatchSafety.SettledBatchesLeaveNothingOpen | backend/internal/repository/postgres/sent_package_repo.go:424-462 | a batch SIAT accepted or rejected has no invoice left SENDING, SENT or OFFLINE |
| BatchSafety.PackagesOnlyAdvance | backend/internal/repository/postgres/sent_package_repo.go:499-529 | over any run a package keeps its invoices and its reception code, never goes back a stage, and never changes once accepted or rejected |
| BatchSafety.ReservedAreFree | backend/internal/repository/postgres/sent_package_repo.go:287-293 | what can be reserved was never in any batch, although rejected batches do not count in the query |
| BatchSafety.UpdateKeepsLines | backend/internal/repository/postgres/sent_package_repo.go:383-464 | rejecting a batch leaves no member within reach of another |
| BatchVerdicts.SendVerdictIsWritable | backend/internal/repository/postgres/sent_package_repo.go:383-464 | in every run, the verdict of a send can be written iff it moves no invoice, or moves them to SENT, or the batch is a bulk batch |
| BatchVerdicts.ImmediateVerdictIsLost | backend/internal/usecase/siat_batches.go:138-159 | in every run, if SIAT settles a package in the answer to its send, then whatever anyone does later the package stays SENDING with no reception code, its invoices OFFLINE, and no batch can take any of them |
| BatchVerdicts.PackagesAreSent | backend/internal/usecase/siat_batches.go:108-121 | from every start, any available OFFLINE invoice can be reserved and sent in a package, where that may happen |
| BatchFiles.ReservedIsAtRest | backend/internal/usecase/siat_batches.go:101-121 | while no store shares what another call may still take back, and no call that created documents misses the answer of its committed reservation, every batch has, from its reservation on, the documents it was stored with at rest, one for each invoice |
| BatchFiles.DropsIffUntidy | backend/internal/usecase/siat_batches.go:101-121 | the exact condition, for batches whose invoices can be reserved as they are stored: after such a run, a step makes it possible for a reserved batch to be left without a document iff it is one of the two |
| BatchFiles.SharedDocumentIsTakenBack | backend/internal/usecase/siat_batches.go:101-121 | in any state: after a store that shares a document another call created, that call's refusal takes it back, and the reservation that follows goes through without it |
| BatchFiles.LostReservationDropsDocuments | backend/internal/usecase/siat_batches.go:108-114 | in any state: a committed reservation whose answer is lost leaves its batch active without a document at once, if its call created any |
| BatchFiles.UntidyStepsHappen | backend/internal/usecase/siat_batches.go:101-121 | for any pending invoice and document, both steps are one store away |
| RateLimiter.TenantRateLimiter.constructor | backend/internal/emissionqueue/limiter.go:24-34 | non-positive rate and burst become 1 |
| RateLimiter.TenantRateLimiter.TryAcquire | backend/internal/emissionqueue/limiter.go:36-62 | one call moves this tenant's bucket and no other |
| RateLimiter.AdmissionsAreBounded | backend/internal/emissionqueue/limiter.go:36-62 | calls admitted from i to j number at most burst + rate x (latest time seen - time of i), even if the clock steps back |
| RateLimiter.FirstCallsAreAdmitted | backend/internal/emissionqueue/limiter.go:42-55 | the first floor(burst) calls of a tenant are admitted, however close together |
| RateLimiter.EarningsAreGranted | backend/internal/emissionqueue/limiter.go:42-61 | from any call on, what is left and what was admitted make up what was left before and what time earned, or a full burst if that is less |
| RateLimiter.RefusedGotItsShare | backend/internal/emissionqueue/limiter.go:42-61 | a tenant that is refused got more than min(burst, rate x time) - 1 calls since any earlier call |
| RateLimiter.WaitIsHonest | backend/internal/emissionqueue/limiter.go:56-61 | the wait is at least a millisecond, and else the time to the next whole token, truncated |
| RateLimiter.TokensAreConserved | backend/internal/emissionqueue/limiter.go:45-53 | tokens left plus calls admitted never exceed one burst plus what time earned |
| RateLimiter.TokensInRange | backend/internal/emissionqueue/limiter.go:45-53 | tokens stay in [0, burst] |
| RateLimiter.TenantsAreIndependent | backend/internal/emissionqueue/limiter.go:40-58 | a tenant's bucket depends on its own calls only |
| RateLimiter.RetryIsAdmitted | backend/internal/emissionqueue/limiter.go:56-61 | one nanosecond after the returned wait a caller is admitted; exactly at the wait iff truncation lost nothing or the 1 ms minimum made up for it |
| CircuitBreakers.StateIsHistory | backend/internal/emissionqueue/circuit_breaker.go:36-87 | failures = failures since the last success; open iff they reach the threshold, until last failure + cooldown; half-open iff a probe passed and nobody reported since |
| CircuitBreakers.GrantedIff | backend/internal/emissionqueue/circuit_breaker.go:36-54 | exactly when a call is let through |
| CircuitBreakers.AnswerIff | backend/internal/emissionqueue/circuit_breaker.go:38-55 | granted iff never opened, or past the cooldown with no probe out; otherwise told the time left, or one second |
| CircuitBreakers.CircuitBreaker.Allow | backend/internal/emissionqueue/circuit_breaker.go:36-54 | the stored states keep standing for the history, tenant by tenant |
| CircuitBreakers.CircuitBreaker.Failure | backend/internal/emissionqueue/circuit_breaker.go:62-73 | the same for a failure |
| CircuitBreakers.CircuitBreaker.Success | backend/internal/emissionqueue/circuit_breaker.go:56-60 | the same for a success |
| CircuitBreakers.CircuitBreaker.AbortProbe | backend/internal/emissionqueue/circuit_breaker.go:78-87 | the same for an aborted probe |
| Worker.Work | backend/internal/emissionqueue/worker.go:58-129 | on every path out the breaker hears exactly the listed calls and one bucket moves; success and rejection close the circuit, an error of none of the seven kinds is counted and at the threshold opens it, anything else leaves the count, and an open circuit asks nothing of the limiter; other tenants are untouched |
| Worker.OutageOpensTheCircuit | backend/internal/emissionqueue/worker.go:124-128 | as many such errors in a row as are missing to the threshold open the circuit until a cooldown after the last; a job before that gets the time left and does not reach the limiter |
| Worker.FailuresAreCounted | backend/internal/emissionqueue/worker.go:124-128 | fewer than that leave it closed, counted one by one |
| Worker.ProbeDecides | backend/internal/emissionqueue/circuit_breaker.go:47-82 | after the cooldown one job goes through: success closes the circuit, one more failure opens it for another cooldown |
| Worker.ResultByKind | backend/internal/emissionqueue/worker.go:80-129 | which of the seven kinds of error become which result, the first that applies winning |
| Worker.AdmittedJob | backend/internal/emissionqueue/worker.go:80-129 | what an admitted job does to its circuit, by the kinds of its error |
| Worker.OneReportPerGrant | backend/internal/emissionqueue/worker.go:68-128 | a call reports exactly once iff it was admitted |
| WorkerPool.JobInThePool | backend/internal/emissionqueue/worker.go:68-129 | a job acts on the shared breaker exactly as Work reports, its ask and its report apart and anyone else between them |
| WorkerPool.FlagHasAWorker | backend/internal/emissionqueue/circuit_breaker.go:47-53 | a standing half-open flag means the call that raised it has not reported; once all workers returned no flag stands |
| WorkerPool.NobodyElseUntilAReport | backend/internal/emissionqueue/circuit_breaker.go:48-50 | while it stands nobody is admitted until somebody reports |
| WorkerPool.OneProbeWithoutStrays | backend/internal/emissionqueue/circuit_breaker.go:14-15 | in every run in which no call reports on a flag it did not raise, at most one probe is out |
| WorkerPool.TwoProbesIffStray | backend/internal/emissionqueue/circuit_breaker.go:14-15 | the exact condition: after a run without such reports, a step makes two probes at once possible iff it is one, whatever it reports |
| WorkerPool.StrayLetsASecondProbeOut | backend/internal/emissionqueue/circuit_breaker.go:56-87 | after such a report, a success included, a second probe can go out beside the first |
| WorkerPool.StraysHappen | backend/internal/emissionqueue/worker.go:80-126 | such a report, of every kind, is reachable under every configuration |
| RetryPolicy.DelayDoubles | backend/internal/emissionqueue/service.go:209-220 | what the policy is meant to give: the base, then twice the delay before for each of thirty attempts, then that of the 31st, never more than the maximum |
| RetryPolicy.ExactIff | backend/internal/emissionqueue/service.go:209-220 | the wrapped delay is min(base x 2^min(attempt-1,30), max) iff the product fits, or wraps negative, or its low part reaches the maximum; otherwise it is that low part |
| RetryPolicy.SmallBaseIsExact | backend/internal/emissionqueue/service.go:209-220 | always, for a base below 2^34 ns |
| RetryPolicy.SmallBaseIsMonotone | backend/internal/emissionqueue/service.go:209-220 | then the delay never shrinks and stays within [base, max] |
| RetryPolicy.LargeBaseRetriesAtOnce | backend/internal/emissionqueue/service.go:209-220 | at 2^34 ns every attempt from the 31st on is retried with no delay |
| RetryPolicy.NewPolicy | backend/internal/emissionqueue/service.go:196-207 | 0 < base <= max; values that already satisfy it stay; a missing base is two seconds, a missing maximum five minutes, and the maximum is raised to the base |

## Left out

- The emission protocol follows one invoice. Invoices do not share rows, and by `KeyInjective` they do
  not share objects, so their runs do not interact.
- `VerifyStatus` and batches are not steps of the single-emission protocol: they can move a SENDING row
  under an attempt. In the batch protocol they are; there a single emission is its claim and its end.
- Liveness. Some crash points leave an invoice safely stuck, and that is what the code does.
- Sector 33, with its externally supplied archive, and adapters without the prepare and dispatch stages.
- EmissionProcess.InvoiceUsecase.SaveWithStatus: looking at an existing object and its row, and repairing the
  row, is one step, and so is reading row and object before a discard. They are reads followed by at most one
  write, under a claim that keeps everyone else off the files (`OthersSpareTheOwner`).
- BatchFiles.ReservedIsAtRest: documents are opaque, storing a batch is one step, all or nothing as
  `BatchIsAllOrNothing` proves it, and the files of single emissions are not in that model.
- BatchFiles.DropsIffUntidy: says nothing of a shared store of a batch that could not be reserved at that
  moment; whether it does harm depends on whether it can be later.
- EmissionDiscards.SecondDocumentIffStaleReader: is about the first removal of metadata, in runs that lost no
  store's answer; after a lost one, a waiting attempt may also hold another preparation than the row does.
- EmissionProcess.InvoiceUsecase.ProcessEmission: credentials, catalogues, PDF and e-mail are a single
  choice to refuse before the claim, or the lost-answer case of the final write.
- Worker.Work: a worker always has a breaker and a limiter (the code skips a missing one), and the
  processor does not panic, which would leave an admission unreported.
- RateLimiter.TenantRateLimiter.TryAcquire: rounding of 64-bit floats, and the saturation of time
  differences beyond 292 years, are not modelled.
- BatchSelection.SelectBatchInvoices: the sorting algorithm is any (here, insertion on a list), not the
  library's; nil entries in the repository's answer are not modelled.
- BatchProtocol: the metadata comparisons of reservation and update (company, point of sale, sector,
  hashes) are left out, since they only refuse more; CUFs in a batch answer, which the send loop never sets.
- FileService: `Open`, `Presign` and timestamps; a reader that fails half-way.
- The XML header comparison of `validarXMLPersistido`, beyond its identity half, and `validateBase`.
- EmissionErrors.WrappingKeepsOutage: letters are lowered as ASCII; the few other letters that Go lowers into
  ASCII are not modelled.
- CUF generation, signing, XML building, SOAP and the sector catalogue's contents: parameters.
- SQL, HTTP, queue tables, dashboards, catalogues, authentication: plumbing around the protocols.
