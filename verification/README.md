# Remit: verified models of its transactional protocols

Remit keeps clients, their documents and their money in one PostgreSQL schema, and most of its promises
are about what a transaction may leave behind. This project models those protocols in Dafny and proves
them for all inputs, all runs or all reachable states.

- **Erasure** (`Schema`, `ErasureSpec`, `ErasureSteps`, `Erasure`, `EraseStatements`, `ForgetClient`,
  `ErasureOutcome`, `ErasureRefusal`). The tables are finite maps of rows; the foreign keys with their
  delete actions, the checks, the unique indexes and the project-and-client rule are one validity
  predicate. `ErasureSpec` says what erasing a client means without any order. The other modules prove that
  the fifteen ordered statements are each accepted on the rows as they then are, end in that closed form,
  report conserved counts and queue exactly the released files, read the outcome off the columns table by
  table, and prove that the refusal is as lenient as the schema allows.
- **Contracts** (`ContractProtocol`, `ContractSafety`, `ContractHistory`, `ContractActions`,
  `ContractEffects`). A state machine over the steps of interleaved requests: a read, then a guarded write;
  a row lock held by a signing; a snapshot held by an erasure; a crash at any point.
- **PDF jobs** (`PdfJobs`, `PdfRender`), **stored files** (`StorageOrder`, `StorageEffects`,
  `StorageActions`), and **backup archives** (`ArchiveLocks`, `ArchiveEffects`, `BackupJobs`): ordering,
  redelivery, locks and crashes.
- **Money** (`Money`, `Balances`, `Settlement`, `CreditNotes`, `InvoiceLock`, `PaymentEffects`,
  `Portal`): the grouped queries against the plain sum, settlement under credit notes, payments, credit
  notes and the trash interleaving under the invoice's lock, and the portal's pages and totals.
- **Counters, tokens, contacts** (`Numbering`, `ClientAccess`, `Contacts`, `ContactRaces`) and two smaller
  machines (`Proxy`, `LocalStorage`).

Where the source changes state step by step, a class does the same and each method is proved against the
specification function or protocol step it stands for, and states its effect on the stored fields as well. The
`...Effects` modules say the same of each protocol step: what one that lands changes and keeps, when it does
not land, and that work left alone goes through. The erasure's one long function is split into five
consecutive methods that keep its statement order.

Modelling choices that matter when reading the contracts:

- A statement of the erasure counts as rejected if *any* order of its set-null actions could break a check,
  which makes acceptance strong; the refusal theorem uses the opposite, most lenient reading.
- Ids and tokens are natural numbers, minted fresh. Time is a number. A transaction's isolation appears as
  row versions and locks.
- Objects, paths and queues are sets; a row's columns that no deletion can touch are folded into one field.

## Properties that do not hold as stated, with their exact conditions

- A contract can be issued with no visible block: `sendContract` validates the blocks it read, its write
  checks only the status. `ContractHistory.SendIssuesWhatIsThere` gives the exact condition,
  `BlankContractIssued` a run, `BlankOnlyByRace` that nothing else causes it.
- A paid invoice can owe money, and the portal total then misses it: withdrawing a credit note does not
  re-settle a trashed invoice, and restoring the invoice does not either. `Settlement.StepKeepsPaidSettled`
  names the one step, `RestoredPaidInvoiceOwes` the run.
- A completed rotation can leave archives on the old key: exactly those it missed, the remote ones if their
  destination was not scanned and those whose re-encryption failed. `ArchiveLocks.CompletedRotation` is the
  equivalence, `CleanRotationReachesAll` what an operator can see to, `RemoteArchiveLeftBehind` an instance.
  The scripts' documentation says all configured archives are re-encrypted; the model follows the code.
- The scheduled backup's probe of the rotation lock can abort a rotation (`ArchiveLocks.ProbeAbortsRotation`);
  `ReacquireFailsExactly` says when.
- Confirming a key that still waits in the release queue lets a later drain remove a named object, and only
  that does, over whole runs (`StorageOrder.RowsKeepTheirObjects`); `ConfirmedAgainLosesItsObject` is a run
  from the empty instance.
- A credit note whose invoice is in the trash when the note's lock is due is committed without a settlement,
  and can leave an open invoice with nothing owed or outdate a decision (`InvoiceLock.StepKeepsInLine`,
  `CreditedWhileTrashed`).
- Mail can be queued for a contract with no PDF pointer, exactly when a hard delete removed its row
  (`PdfJobs.QueuedMailLacksPointerIffGone`, `MailFollowsUpdate`, with the run in `MailWithoutPointer`).
- Printed numbers can collide after a prefix is shortened, exactly under `Numbering.Risky(later, earlier)`
  (`Numbering.PrefixChangeCollides`); lengthening it is safe (`LengtheningIsSafe`).

## Model

| member | source | states |
|---|---|---|
| `Schema.ForeignKeyOf` | database/schema/contracts.ts:22-38 | every foreign key with its delete action, client columns pointing at clients, project columns at projects, and all keys pointing down a fixed ranking of the tables, so cascades end |
| `Schema.KeysByColumn` | drizzle/migrations/0000_initial_schema.sql:689-801 | the same keys read column by column: for each column, the tables that have it, the one table it names, and which of them go with the row it names |
| `Schema.CascadeParent` | database/schema/projects.ts:26-28 | and takes nothing it does not name itself except through such a cascade |
| `Schema.WithoutKeepsAgreement` | drizzle/migrations/0002_document_parent_agreement.sql:14-18 | removing rows, with their set-null actions, keeps the composite rule that a row's project and client agree |
| `Schema.DeletePreservesValid` | database/schema/contracts.ts:59-84 | an accepted DELETE keeps every foreign key, agreement rule, check and unique index |
| `ErasureSpec.ErasedNamesNothing` | features/clients/forget.ts:60-221 | after an erasure no column of any row, and no log entry of a listed kind, names the client or anything that belonged to it |
| `ErasureSpec.UnrelatedRowsKept` | features/clients/forget.ts:60-221 | a row that belonged to nobody erased keeps its body and loses only optional references into erased rows |
| `ErasureSpec.QueuedObjectsExact` | lib/storage/objectDeletions.ts:131-172 | the queued objects are exactly the files of uploads that some row named before, by a column, an image block or an avatar, and none names after, plus the archives of the exports carrying the client |
| `ErasureSpec.ReferencedExactly` | lib/storage/objectDeletions.ts:66-125 | an upload id is referenced exactly when some row's upload column holds it, some template's or contract's blocks do, or some user's avatar is stored at its path |
| `ErasureSpec.UploadGoesExactly` | lib/storage/objectDeletions.ts:131-175 | an upload's row goes exactly when some row named it before and no row that is left does |
| `ErasureOutcome.SurvivesExactly` | features/clients/forget.ts:60-221 | table by table and by columns alone, which rows an erasure leaves: whose client column holds another client or none, or whose one parent is left; logs unless about an erased record of a listed kind |
| `ErasureOutcome.SurvivorKept` | features/clients/forget.ts:60-221 | a row that is left keeps its body and all its columns but those that named a row which went |
| `ErasureOutcome.BlockingExactly` | features/clients/forget.ts:245-252 | what refuses an erasure is exactly a contract with the client in its column that some signature names |
| `ErasureOutcome.NamedUploadStays` | lib/storage/objectDeletions.ts:48-50 | an upload that a row left behind names, in any of the four ways, keeps its row, and its file is not queued |
| `ErasureOutcome.UnnamedUploadGoes` | lib/storage/objectDeletions.ts:127-154 | an upload that a row named before and no row left names goes, and its file is queued |
| `ErasureSpec.SurvivingFilesNotQueued` | database/schema/objectDeletions.ts:15-25 | the file of a surviving upload row is never queued |
| `ErasureSteps.ClosureStaysInTable` | features/clients/forget.ts:120-202 | what one statement deletes is its own table's rows and the attachments, line items and codes hanging off them, nothing a later statement counts |
| `ErasureSteps.NulledColumnsAreSoft` | features/clients/forget.ts:53-59 | no statement sets a client or project column to NULL, nor touches a signature, which is what the order is for |
| `ErasureSteps.StatementAccepted` | features/clients/forget.ts:290-303 | one statement on a partly erased database is accepted and moves the closed form on by exactly its rows |
| `ErasureSteps.ErasureComplete` | features/clients/forget.ts:120-202 | once the fifteen tables are emptied, cascades have taken exactly the rest of what belonged to the client |
| `ErasureSteps.StatementFindsAllRows` | features/clients/forget.ts:120-202 | no earlier cascade took a row a later statement would have counted |
| `ErasureSteps.ReleaseAccepted` | lib/storage/objectDeletions.ts:140-154 | deleting the released uploads takes no other row along and is never rejected |
| `Erasure.ProjectsSelected` | features/clients/forget.ts:70-75 | the project read finds exactly the projects that belong to the client |
| `Erasure.ClientRowsSelected` | features/clients/forget.ts:281-288 | the two-column client link selects exactly the rows that belong to the client, through either half |
| `Erasure.ChildRowsSelected` | features/clients/forget.ts:273-277 | payments, credit notes, time entries, tasks, contacts and exports selected by key are exactly those that belong to the client, on the partly erased rows |
| `Erasure.LogsSelected` | features/clients/forget.ts:258-271 | the log deletes select exactly the entries about an erased record of a listed kind |
| `Erasure.SignatureBlocks` | features/clients/forget.ts:245-252 | a signature belonging to the client always shows up as a blocking contract |
| `EraseStatements.WhereSelectsDoomed` | features/clients/forget.ts:120-202 | each of the fifteen WHERE clauses selects, when its turn comes, exactly its table's share of what belonged to the client at the start |
| `EraseStatements.OrderIsReady` | features/clients/forget.ts:53-59 | the statement order empties every table owned through another before that other |
| `EraseStatements.StatementsNeverRejected` | features/clients/forget.ts:120-202 | from any valid database without blocking signatures, no prefix of the statements is rejected and every intermediate database is valid |
| `EraseStatements.StatementSelects` | features/clients/forget.ts:290-303 | the rows a statement selects do not depend on what ran before it |
| `EraseStatements.TransactionCommits` | features/clients/forget.ts:60-221 | the whole transaction commits the closed form, and the result satisfies every constraint |
| `EraseStatements.CountsAreRows` | features/clients/forget.ts:120-202 | each reported count is the number of the table's rows that belonged to the client |
| `ForgetClient.ReportedCountsConserved` | features/clients/forget.ts:290-303 | for every counted table, rows after plus reported count equals rows before |
| `ForgetClient.NumbersAreDistinct` | features/clients/forget.ts:226-243 | distinct blocking contracts print distinct numbers, so the warning list is as long as the refusal's count |
| `ForgetClient.ForgetTransaction.DeleteRows` | features/clients/forget.ts:290-303 | one counted DELETE of the running transaction |
| `ForgetClient.ForgetTransaction.DeleteSubgraph` | features/clients/forget.ts:120-202 | the fifteen statements in their order, the exports' rows returned |
| `ForgetClient.Instance.ForgetClientWrite` | features/clients/forget.ts:60-221 | not found, blocked with the exact count and nothing changed, or the closed form committed with its queue, the client's name and conserved counts; never a constraint error |
| `ForgetClient.Instance.ReadSignedContracts` | features/clients/forget.ts:97-112 | the signed contracts among the client's are exactly the blocking ones |
| `ForgetClient.Instance.ListErasureBlockingContracts` | features/clients/forget.ts:226-252 | the warning names exactly the contracts the write counts, each once, in the order of the database's collation |
| `ForgetClient.Instance.ForgetClientAction` | features/clients/forgetMutations.ts:26-84 | the action erases exactly when the client exists, the trimmed names match and nothing blocks, and each error has exactly its own cause; names with no white space at their ends must be equal; it drains only what the commit queued |
| `ForgetClient.TrimExactly` | features/clients/forgetMutations.ts:45-49 | trimming cuts white space off both ends and nothing else, and leaves a name without any alone |
| `ErasureRefusal.RemovalKeepsHold` | database/schema/contractSignatures.ts:5-19 | a permitted deletion keeps a signature, its contract and the contract's client |
| `ErasureRefusal.BlockedClientStays` | features/clients/forget.ts:91-114 | so does any run of permitted deletions, even with the most lenient reading of the set-null order |
| `ErasureRefusal.RefusedMeansImpossible` | features/clients/forget.ts:91-114 | a client the erasure refuses cannot be removed by any sequence of row deletions, and stays blocked by the same contracts |
| `ErasureRefusal.AcceptedIsPermitted` | features/clients/forget.ts:290-303 | every statement the database accepts is a permitted deletion |
| `ErasureRefusal.RefusalIsExact` | features/clients/forget.ts:91-114 | some run of permitted deletions removes the client exactly when no contract of it is countersigned, the erasure itself being such a run |
| `ContractSafety.UpdatedFits` | features/contracts/mutations.ts:248-266 | every guarded UPDATE leaves its row, the signatures, the proposal slot and the tokens consistent |
| `ContractSafety.InsertKeepsInv` | features/contracts/mutations.ts:169-190 | a create or conversion that passes the unique index keeps one live contract for each proposal and unique tokens |
| `ContractSafety.SigningKeepsInv` | features/contracts/publicSigning.ts:136-165 | a committed signing adds one signature to a contract that had none, under the row lock it held since its guard |
| `ContractSafety.ClearingKeepsInv` | features/clients/forget.ts:163-163 | an erasure's commit leaves no orphan signature |
| `ContractSafety.StepKeepsInv` | features/contracts/mutations.ts:71-444 | no step of any request breaks the invariant |
| `ContractSafety.RunKeepsInv` | features/contracts/mutations.ts:71-444 | it holds in every reachable state of any number of interleaved requests, crashes included |
| `ContractSafety.ReachableFits` | features/contracts/mutations.ts:71-444 | so it holds in every state an instance without contracts can reach, parents that agree included |
| `ContractHistory.LifecycleHolds` | features/contracts/mutations.ts:296-444 | draft iff never issued, draft and sent unsigned, signed exactly once, terminated at most once, never stored as expired, in every reachable state |
| `ContractHistory.RecordKept` | features/contracts/mutations.ts:246-266 | over any run signatures only grow, and an issued contract's title, blocks, dates, issue time and parents never change |
| `ContractHistory.ErasureIsWhole` | features/clients/forget.ts:60-66 | an erasure transaction commits whole or not at all, only a contract that reached the client after the snapshot stops it, and never the signature trigger |
| `ContractHistory.SignedContractsStay` | features/contracts/publicSigning.ts:124-165 | whatever erasures interleave, a committed signature keeps its contract for good |
| `ContractHistory.SigningIsWhole` | features/contracts/publicSigning.ts:124-165 | a signing that reaches its commit leaves the contract signed with exactly its signature |
| `ContractHistory.LostSigningLeavesNothing` | features/contracts/publicSigning.ts:137-145 | a signing whose row is gone or no longer sent finishes and leaves no trace |
| `ContractHistory.OneLiveContractPerProposal` | database/schema/contracts.ts:63-71 | no reachable state holds two live contracts for one proposal |
| `ContractHistory.DeadStaysDead` | features/contracts/publicQueries.ts:124-140 | a token no contract holds any more opens nothing in any later state of any run |
| `ContractHistory.LinkChangeKills` | features/contracts/publicLink.ts:42-45 | a rotation or revocation that lands kills the token held until then |
| `ContractHistory.SendIssuesWhatIsThere` | features/contracts/mutations.ts:322-344 | a send issues a blank contract exactly when the row is blank at its write, whatever was validated before |
| `ContractHistory.BlankOnlyByRace` | features/contracts/mutations.ts:322-344 | over any run, a blank contract is issued only if an update of it landed between a send's read and its write |
| `ContractHistory.OneDraftIsReached` | features/contracts/mutations.ts:169-190 | one create reaches the draft the next row starts from |
| `ContractHistory.BlankContractIssued` | features/contracts/mutations.ts:322-344 | that race happens from an instance without contracts: an update and a send that both read the draft issue a contract with no visible block |
| `ContractActions.ContractTable.ResolveContractParents` | features/contracts/mutations.ts:494-526 | the form's parents resolve exactly when each one named is live and, named together, they agree; the client comes off the project, as the composite key demands |
| `ContractActions.ContractTable.CreateContract` | features/contracts/mutations.ts:71-135 | one caller's create succeeds exactly when its parents resolve, and adds one draft with that content, those parents and the token minted for it |
| `ContractActions.ContractTable.UpdateContract` | features/contracts/mutations.ts:222-294 | one caller's update succeeds exactly on a live draft whose new parents resolve, replaces its parents and content and keeps the rest; not-found and not-draft have exactly their causes |
| `ContractActions.ContractTable.SendContract` | features/contracts/mutations.ts:296-373 | one caller's send succeeds exactly on a live draft with visible content, makes it sent as of now and keeps content, token, parents and every other row; each error has exactly its cause |
| `ContractActions.ContractTable.TerminateContract` | features/contracts/mutations.ts:375-444 | one caller's termination succeeds exactly on a live sent or signed contract, makes it terminated as of now, out of the trash, and keeps everything else, signatures included; each error has exactly its cause |
| `ContractActions.ContractTable.RotateContractPublicLink` | features/contracts/publicLink.ts:28-74 | rotation succeeds exactly on a live issued contract, which then holds the new token and is otherwise as it was |
| `ContractActions.ContractTable.RevokeContractPublicLink` | features/contracts/publicLink.ts:76-122 | revocation succeeds exactly on a live issued contract that still has a token, which is then gone and nothing else |
| `ContractActions.ContractTable.RecordContractSignature` | features/contracts/publicSigning.ts:128-166 | the transaction on a live sent contract writes status and signature together |
| `ContractActions.ContractTable.SignPublicContract` | features/contracts/publicSigning.ts:54-122 | signing succeeds exactly when the token opens a contract that day, makes it signed with its one signature, and changes nothing otherwise |
| `ContractActions.ContractTable.SoftDeleteContract` | features/contracts/trashMutations.ts:24-68 | soft delete succeeds exactly on a live contract, which is then in the trash with all it had |
| `ContractActions.ContractTable.CreateContractFromProposal` | features/contracts/mutations.ts:137-220 | a conversion succeeds exactly on a live accepted proposal without a live contract, and takes the proposal's parents |
| `ContractActions.ContractTable.RestoreContract` | features/contracts/trashMutations.ts:70-136 | a restore succeeds exactly on a deleted contract none of whose parents is in the trash and whose proposal was not converted again, and gives it back as it was |
| `ContractActions.AloneUpdates` | features/contracts/mutations.ts:248-266 | with nothing in between, a read that succeeds makes its guarded write succeed |
| `ContractActions.HeldSigningKeepsInv` | features/contracts/publicSigning.ts:136-165 | the lock, the signature and the commit of one signing compose to the signed state |
| `ContractEffects.TerminationLands` | features/contracts/mutations.ts:399-416 | a termination that writes, whatever ran in between, ends a live sent or signed contract with its time and keeps everything else; on any other row it does nothing |
| `ContractEffects.SendLands` | features/contracts/mutations.ts:322-344 | a send that writes issues a live draft as it then stands and keeps content, links and token |
| `ContractEffects.UpdateLands` | features/contracts/mutations.ts:248-266 | an update that writes replaces parents and content of a row still a live draft, if the parents are there by then |
| `ContractEffects.RestoreLands` | features/contracts/trashMutations.ts:107-116 | a restore that writes takes a deleted row out of the trash unless another live contract has its proposal |
| `ContractEffects.LinkChangeLands` | features/contracts/publicLink.ts:42-45 | a rotation that writes leaves the minted token on a live row, a revocation none, and nothing else changes |
| `ContractEffects.InsertLands` | features/contracts/mutations.ts:169-190 | a create or conversion that writes adds the asked-for draft, unless its proposal was taken or its parents went |
| `ContractEffects.SoftDeleteLands` | features/contracts/trashMutations.ts:36-45 | the trash takes a live row nobody holds, with all it has |
| `ContractEffects.SigningTakesRow` | features/contracts/publicSigning.ts:136-145 | a signing takes the row lock exactly on a row that is still live and sent |
| `ContractEffects.SigningCommitLands` | features/contracts/publicSigning.ts:146-165 | its commit makes that row signed and adds its one signature |
| `ContractEffects.ErasureCommitLands` | features/clients/forget.ts:120-202 | an erasure's commit takes the snapshot's contracts, the client and its projects, or nothing if a signed or later contract is in the way |
| `ContractEffects.UndisturbedErasure` | features/clients/forget.ts:60-66 | with no row changed since its snapshot and none held, an erasure of an unsigned client goes through |
| `ContractEffects.DisturbedErasureStops` | features/clients/forget.ts:60-66 | one row of the snapshot changed, gone or held stops it with nothing done |
| `ContractEffects.WritersBegin` | features/contracts/mutations.ts:71-294 | which creates, conversions and updates get past their reads, in the stored fields |
| `ContractEffects.SignersBegin` | features/contracts/publicSigning.ts:54-90 | which signings do: a live sent contract with that token, not past its end that day |
| `ContractEffects.TransitionsExactly` | features/contracts/services/canTransitionContractStatus.ts:16-37 | the whole lifecycle as a set of five transitions |
| `ContractEffects.RefusedLeavesNoTrace` | features/contracts/mutations.ts:71-444 | a request its reads refuse leaves the state as it was, and one given up leaves all but itself |
| `PdfJobs.SignedPdfIsWrittenOnce` | drizzle/migrations/0001_insert_only_guards.sql:26-54 | from the empty instance, over any deliveries, crashes and removals, the write-once trigger never raises, and a signed PDF pointer once set stays that pointer, with its file |
| `PdfJobs.RowsComeAndGo` | database/schema/contractSignatures.ts:5-19 | a contract row comes once for each id, a signature of a contract that is there and for good, a contract goes unless one names it, and a dead worker leaves everything else |
| `PdfJobs.StepKeepsInv` | features/contracts/pdfRenderJob.ts:22-194 | every step keeps pointers with their files, mail behind pointers, and the write-once rule |
| `PdfJobs.RunKeepsInv` | features/contracts/pdfRenderJob.ts:22-194 | under any deliveries, workers and crashes: no trigger error, a pointer once set is never rewritten, its upload and object exist, and queued mail has its pointer or lost its contract |
| `PdfJobs.FinishedWithPdfMailed` | features/contracts/pdfRenderJob.ts:212-223 | a run asked for mail that ends with a PDF has queued it |
| `PdfJobs.RedeliveryCompletes` | features/contracts/pdfRenderJob.ts:33-41 | from every reachable state one undisturbed delivery ends with pointer and mail, and renders nothing again if the pointer was set |
| `PdfJobs.QueuedMailLacksPointerIffGone` | features/contracts/pdfRenderJob.ts:84-98 | in every reachable state a contract whose mail was queued lacks its pointer exactly when its row is gone, and then the run removed it |
| `PdfJobs.MailFollowsUpdate` | features/contracts/pdfRenderJob.ts:84-98 | from every state of the invariant, a worker about to write the pointer queues its mail, and the contract then has a pointer exactly when its row is there at the UPDATE |
| `PdfJobs.MailWithoutPointer` | features/contracts/pdfRenderJob.ts:84-98 | the run that does it, from the empty instance: the row goes between the upload's insert and the UPDATE |
| `PdfRender.Instance.StoreDocumentPdf` | lib/pdf/storeDocumentPdf.ts:29-59 | object first, row second: when the row's insert fails, the object stays without a row and no row is without its object |
| `PdfRender.Instance.RenderContractPdf` | features/contracts/pdfRenderJob.ts:22-99 | a contract without its pointer gets the new upload and object as its own, none of it when the document cannot be built and the object alone when the insert fails; mail is queued only behind a pointer; it is the machine's undisturbed run |
| `PdfRender.Instance.RenderSignedContractPdf` | features/contracts/pdfRenderJob.ts:111-194 | a signature of that contract without its PDF gets one, once; a redelivery changes nothing, and mail and contract pointers are never touched |
| `PdfRender.UndisturbedRender` | features/contracts/pdfRenderJob.ts:22-99 | what one contract delivery stores, case by case, a failed insert included |
| `PdfRender.UndisturbedSigned` | features/contracts/pdfRenderJob.ts:111-194 | what one signed-copy delivery stores, case by case, a failed insert included |
| `StorageOrder.SafePrefixKeepsInv` | features/attachments/mutations.ts:166-180 | an action may crash after any of its effects and still leave every row with its object |
| `StorageOrder.EffectsAreSafe` | features/clients/imageMutations.ts:53-74 | each effect of attachment, image, erasure and drain actions is safe where it happens, if a confirmed key is not queued |
| `StorageOrder.DrainIsSafe` | lib/storage/objectDeletions.ts:177-186 | draining keys no row names never takes a named object |
| `StorageOrder.EventKeepsInv` | features/attachments/mutations.ts:89-116 | one action, cut short anywhere, keeps every row's object and keeps the queue unnamed exactly when it does not insert a row for a queued key |
| `StorageOrder.RowsKeepTheirObjects` | database/schema/objectDeletions.ts:15-25 | over any serial run with crashes anywhere, that rule holds at every point exactly when no event confirms a queued key |
| `StorageOrder.ConfirmingOnceIsSafe` | features/attachments/mutations.ts:66-116 | confirming each minted key at most once is enough for it |
| `StorageOrder.ConfirmingAQueuedKey` | features/attachments/mutations.ts:89-116 | a confirmation keeps the rule exactly when its key is not in the release queue |
| `StorageOrder.ConfirmingAQueuedImage` | features/clients/imageMutations.ts:53-74 | the same for a client image, at every crash point after its row is inserted |
| `StorageOrder.QueuedKeyLosesItsObject` | features/attachments/mutations.ts:66-116 | confirming a queued key, then sweeping, leaves a row naming a removed object |
| `StorageOrder.ConfirmedAgainLosesItsObject` | features/clients/forget.ts:205-218 | a whole run from the empty instance: an attachment's client is erased, the process dies before the drain, the key is confirmed again, and the sweep takes its object |
| `StorageOrder.ReplacingKeepsAnImage` | features/clients/imageMutations.ts:66-74 | wherever a replacement crashes, the client still shows the old image or the new one |
| `StorageActions.CheckAttachmentLimits` | features/attachments/services/attachmentLimits.ts:19-32 | allowed exactly when the record stays within both limits with the file added |
| `StorageActions.Store.AddAttachment` | features/attachments/mutations.ts:44-139 | an attachment is added exactly for a live parent, a stored object of an accepted size, within the limits and named by no row; it then names that object, and each refusal has exactly its cause |
| `StorageActions.Store.RemoveAttachment` | features/attachments/mutations.ts:141-203 | row, attachment and object go together, every other upload and attachment stays |
| `StorageActions.Store.ConfirmClientImageUpload` | features/clients/imageMutations.ts:25-91 | the client then shows the new upload, the image it replaces is gone with its object, other clients' images stay; every row keeps its object exactly when the key was not in the release queue |
| `StorageActions.Store.RemoveClientImage` | features/clients/imageMutations.ts:93-136 | the client shows no image, and its upload and object are gone |
| `StorageActions.Store.DeleteBatch` | lib/storage/objectDeletions.ts:253-275 | the drain loop removes the objects the store accepts and the queue rows whose delete then succeeds, an object gone before its row staying queued; it counts them and stops early only after three failures in a row |
| `StorageEffects.ImageConfirmed` | features/clients/imageMutations.ts:53-74 | a confirmation run to its end shows the new image and has taken the old one's row and object; one that may not start changes nothing |
| `StorageEffects.ImageRemoved` | features/clients/imageMutations.ts:93-136 | a removal run to its end leaves the client without an image, and that image gone |
| `StorageEffects.AttachmentAdded` | features/attachments/mutations.ts:89-116 | an addition run to its end adds the row and the attachment and nothing else |
| `StorageEffects.AttachmentRemoved` | features/attachments/mutations.ts:141-203 | a removal run to its end takes attachment, row and object |
| `StorageEffects.ForgetReleases` | features/clients/forget.ts:205-218 | an erasure run to its end has let go of the released rows and all that named them, and its drained objects are gone and no longer queued |
| `StorageEffects.SweepTakes` | lib/storage/objectDeletions.ts:177-186 | a sweep run to its end takes the queued objects and their queue rows, and nothing else |
| `ArchiveLocks.StepKeepsLocks` | lib/backups/backupLock.ts:18-87 | both locks are always held by exactly the process whose phase holds them, through crashes too |
| `ArchiveLocks.StepKeepsPass` | scripts/core/keyRotation/runRotation.ts:108-113 | while a pass re-encrypts, nobody else changes an archive |
| `ArchiveLocks.OneWriter` | scripts/README.md:81-93 | over any run at most one process writes, prunes or re-encrypts, and an ended process holds no lock |
| `ArchiveLocks.OneRotation` | scripts/core/keyRotation/lock.ts:10-39 | at most one rotation rewrites tables at a time |
| `ArchiveLocks.LeftIsMissed` | scripts/core/keyRotation/archives.ts:45-81 | what a pass leaves behind is exactly what the events say it missed: the remote archives if the remote destination was not scanned when it began, and each one whose re-encryption failed |
| `ArchiveLocks.CompletedRotation` | scripts/README.md:105-113 | when a completed rotation still holds the backup lock, exactly the missed archives keep the key they had and every other one is on the new key; so all are exactly when the missed ones already were |
| `ArchiveLocks.CleanRotationReachesAll` | scripts/README.md:105-113 | over any run of any number of processes, if the remote destination was scanned or empty and no re-encryption failed, no archive is on another key then |
| `ArchiveLocks.ReacquireFailsExactly` | scripts/core/keyRotation/runRotation.ts:139-143 | after its own backup a rotation aborts exactly when a scheduled backup is probing the rotation lock or another rotation holds it alone, about to get or just past its backup lock |
| `ArchiveLocks.ProbeAbortsRotation` | features/backups/jobs.ts:130-150 | from an idle start, the scheduled backup's probe alone aborts a rotation that was running undisturbed |
| `ArchiveLocks.RemoteArchiveLeftBehind` | scripts/core/keyRotation/archives.ts:60-65 | an instance from an idle start: a remote archive behind credentials that do not validate is missed and keeps its old key |
| `BackupJobs.Instance.IsKeyRotationRunning` | features/backups/jobs.ts:130-150 | asking changes nobody's lock and answers whether it is held |
| `BackupJobs.Instance.RunScheduledBackup` | features/backups/jobs.ts:30-119 | runs exactly when no early exit applies and both locks are free; every way out restores the locks, and archives change only inside |
| `BackupJobs.Instance.ReencryptConfiguredArchives` | scripts/core/keyRotation/archives.ts:134-166 | the loop's two counts are exact, an archive rewritten before its audit row failed being in both; other archives are untouched; the listed ones all end on the target key exactly when each untouched one was there |
| `ArchiveEffects.ScheduledGoesOn` | features/backups/jobs.ts:55-72 | a scheduled backup probes the rotation lock, lets it go and takes the backup lock; a lock it cannot get ends it with nothing held |
| `ArchiveEffects.RotationGoesOn` | scripts/core/keyRotation/runRotation.ts:113-153 | a rotation takes the rotation lock, then the backup lock, and without resuming lets the first go for its own backup and takes it back |
| `ArchiveEffects.WriteLands` | lib/backups/backupLock.ts:26-32 | archives are stored and pruned by a process in its backup or pre-rotation backup, and by no other |
| `ArchiveEffects.PassBegins` | scripts/core/keyRotation/archives.ts:45-81 | a pass begins with every local archive listed, and the remote ones exactly if that destination is scanned |
| `ArchiveEffects.PassGoesDown` | scripts/core/keyRotation/archives.ts:134-166 | each archive listed is tried once: it ends on the target key, or stays as it was and is noted |
| `ArchiveEffects.PassStands` | scripts/core/keyRotation/archives.ts:134-166 | nothing else moves an archive during a pass, and a pass does not end before its list does |
| `ArchiveEffects.PassEnds` | scripts/core/keyRotation/runRotation.ts:164-191 | then it completes, lets the backup lock go and after it the rotation lock |
| `ArchiveEffects.CrashFrees` | lib/backups/backupLock.ts:18-24 | a process that dies frees what it held, and nobody else's lock |
| `ArchiveEffects.PassAloneCompletes` | scripts/README.md:105-113 | left alone, a pass over any list of archives puts all of them on the target key and completes the rotation |
| `Balances.GroupsJoinOnce` | features/clients/queryFragments.ts:25-33 | a left join against a GROUP BY gives one row with the sum: no fan-out, nothing lost |
| `Balances.InvoiceContributesOnce` | features/clients/queryFragments.ts:35-50 | each qualifying invoice contributes one row holding what it still owes |
| `Balances.SubqueryIsBalance` | features/clients/queryFragments.ts:24-54 | the grouped, left-joined subquery equals, for every client, the plain clamped sum over its live sent and paid invoices; the count subquery likewise |
| `Balances.JoinedClientsExact` | features/clients/queries.ts:131-151 | the list's joins neither repeat nor lose a client |
| `Balances.ViewsAgree` | features/clients/queries.ts:382-394 | list, summary and client page show one balance for a live client; the page shows zero for a deleted one |
| `Balances.SelectInOrder` | features/clients/queries.ts:131-151 | a filter keeps the rows it admits in their order, each as often as it was |
| `Balances.GetClientHealthCondition` | features/clients/queries.ts:348-378 | the SQL health filter admits a row exactly when its badge is among those asked for: owing above zero, settled at zero with an invoice, dormant at zero without one |
| `Balances.CalculateOutstandingBalance` | features/clients/services/calculateOutstandingBalance.ts:28-48 | the service's loop computes the same balance |
| `Money.BalanceAddsUp` | features/clients/queryFragments.ts:35-54 | the plain sum grows, for each live sent or paid invoice of the client, by what total exceeds payments and live credits, and for no other |
| `Money.CreditAddsUp` | features/clients/queryFragments.ts:25-33 | credit is the sum of an invoice's own notes that are out of the trash |
| `Settlement.CreditedFlip` | features/creditNotes/mutations.ts:214-229 | withdrawing or restoring a note moves its own invoice's credit by its total and no other's |
| `Settlement.NoteLands` | features/creditNotes/mutations.ts:70-97 | a note is stored exactly on a live issued invoice for a positive total, and that invoice is paid exactly when payments and credits now cover it |
| `Settlement.NoteMoves` | features/creditNotes/mutations.ts:164-229 | a withdrawn or restored note changes its trash flag alone, and re-settles its invoice if that is out of the trash |
| `Settlement.InvoiceMoves` | features/invoices/trashMutations.ts:35-45 | the trash takes an invoice and gives it back with all it had, settling nothing |
| `Settlement.StepKeepsPaidSettled` | features/creditNotes/mutations.ts:70-97 | a step keeps paid equivalent to settled, for every issued invoice, exactly when it does not withdraw a note that was covering a trashed paid invoice |
| `Settlement.RunKeepsPaidSettled` | features/creditNotes/mutations.ts:164-229 | so over any run without such a withdrawal, an issued invoice is paid exactly when payments and live credits cover its positive total |
| `Settlement.TotalsAgree` | features/clients/publicQueries.ts:200-206 | the portal's sent-only total equals the dashboard balance exactly when no live paid invoice of the client still owes |
| `Settlement.PortalMatchesDashboard` | features/clients/publicQueries.ts:95-134 | over any such run the two totals agree for every client |
| `Settlement.RestoredPaidInvoiceOwes` | features/payments/paymentWrites.ts:385-406 | trashing a settled invoice, withdrawing its note and restoring it leaves it paid, owing, and missing from the portal total |
| `CreditNotes.Ledger.ResettleInvoiceWrite` | features/payments/paymentWrites.ts:364-379 | afterwards a live issued invoice carries the sum of its live payments and is paid exactly when that and its credit cover a positive total; nothing else changes |
| `CreditNotes.Ledger.CreateCreditNote` | features/creditNotes/mutations.ts:38-127 | a note is created exactly on a live issued invoice with a positive total, its invoice re-settled and nothing else changed, and paid keeps meaning settled |
| `CreditNotes.Ledger.SoftDeleteCreditNote` | features/creditNotes/mutations.ts:200-263 | a live note is then withdrawn and its invoice re-settled; paid keeps meaning settled exactly when the withdrawal does not uncover a trashed invoice |
| `CreditNotes.Ledger.RestoreCreditNote` | features/creditNotes/mutations.ts:129-198 | the note is live again and its invoice re-settled, unless that invoice is in the trash; paid keeps meaning settled |
| `InvoiceLock.ChangeMovesOneInvoice` | features/payments/paymentWrites.ts:461-475 | a payment or credit change, an edit included, moves the sums of its own invoice by its amount and no other's |
| `InvoiceLock.CommittedFits` | features/payments/paymentWrites.ts:533-562 | a decision on the rows it commits to leaves paid equivalent to settled |
| `InvoiceLock.OwnSumsAfter` | features/payments/paymentWrites.ts:356-363 | what another transaction sees paid and credited on its invoice moves by a commit on the same invoice, and not by any other |
| `InvoiceLock.OthersUnmoved` | features/payments/paymentWrites.ts:380-406 | a commit leaves every other open transaction's row admissible and every decision on another invoice as it was |
| `InvoiceLock.DecisionFits` | features/payments/paymentWrites.ts:284-308 | a change that adds no money, or keeps within the total, decides an invoice that carries what is recorded and its own amount, never above the total; `PaymentEffects.DecideAccepts` says that exactly these are decided |
| `PaymentEffects.DecideAccepts` | features/payments/services/paymentSettlement.ts:40-52 | under the lock a change is turned away exactly when it adds money and what is recorded would pass the total; the whole outstanding rest is accepted |
| `PaymentEffects.PaymentAlone` | features/payments/paymentWrites.ts:412-446 | an undisturbed payment that fits is stored and pays its invoice exactly when payments and credits cover it; a larger one changes nothing |
| `PaymentEffects.EditAlone` | features/payments/paymentWrites.ts:159-220 | so does an edited amount, in place of the one it replaces |
| `PaymentEffects.RestoredPaymentAlone` | features/payments/paymentWrites.ts:222-280 | and a payment brought back from the trash |
| `PaymentEffects.WithdrawnPaymentAlone` | features/payments/paymentWrites.ts:282-318 | a withdrawn payment is never refused, and its invoice is re-settled without it |
| `PaymentEffects.NoteAlone` | features/creditNotes/mutations.ts:70-97 | a note is never refused for its amount, and settles its invoice when it covers what is left |
| `PaymentEffects.ChangeBegins` | features/payments/paymentWrites.ts:103-111 | which changes start: what they are about is there and issued, nobody has the same row open, and a note made or restored finds its invoice out of the trash |
| `PaymentEffects.LockIsTaken` | features/payments/paymentWrites.ts:381-406 | the lock of a live invoice is taken when nobody has it and waited for while somebody does |
| `PaymentEffects.LockFindsTrash` | features/payments/paymentWrites.ts:364-370 | at a trashed invoice a payment ends and a note goes on unsettled |
| `PaymentEffects.TrashMoves` | features/invoices/trashMutations.ts:35-45 | an invoice whose lock nobody holds moves into or out of the trash with all it had; a held one waits |
| `InvoiceLock.StepKeepsInv` | features/payments/paymentWrites.ts:356-406 | no step of interleaved payments, credit notes and trashings breaks the lock, the sums standing or about to be written, or the bound by the total |
| `InvoiceLock.StepKeepsInLine` | features/payments/paymentWrites.ts:364-378 | a step keeps the statuses that stand and those about to be written in line with payments and credits exactly when it is not a note committed without settlement that crosses its invoice's settlement line or outdates a decision on it |
| `InvoiceLock.InLineExactly` | features/payments/paymentWrites.ts:356-406 | over any run the statuses are in line at every point exactly when no step is such a commit |
| `InvoiceLock.LiveNeverUnsettles` | features/invoices/trashMutations.ts:22-39 | while no invoice is moved to the trash, no commit is such |
| `InvoiceLock.PaidMeansSettledThroughout` | features/payments/paymentWrites.ts:356-363 | whatever interleaves and whoever commits last, each invoice carries its committed payments, an issued one never more than its total, and without such a commit it is paid exactly when payments and credits settle it |
| `InvoiceLock.CreditedWhileTrashed` | features/creditNotes/mutations.ts:67-97 | a run from a sent invoice: it is trashed between a full note's begin and its lock, the note is committed unsettled, and the restored invoice stays open with nothing owed |
| `InvoiceLock.StaleDecisionLeavesPaidOwing` | features/payments/paymentWrites.ts:380-384 | without the lock two withdrawals that each saw the other's note leave the invoice paid and owing |
| `Portal.OneOrder` | features/clients/publicQueries.ts:209-228 | the order by created time then id is total: two reads of the same rows list them identically |
| `Portal.NewestFirst` | features/clients/publicQueries.ts:224-224 | that order is newest first, ties by the larger id |
| `Portal.ResolvePortalPage` | features/clients/services/portalPaging.ts:11-16 | the page is clamped to the list and its offset lands on a row |
| `Portal.PagesCoverTheList` | features/clients/publicQueries.ts:145-155 | walking pages 1 to the page count shows every row exactly once in order; past the end is the last page; no page is empty unless the list is |
| `Portal.GroupCreditNotesByInvoice` | features/clients/publicQueries.ts:358-375 | the grouping loop gives each invoice its own notes in the order read, and has no entry for any other |
| `Portal.GroupedCredit` | features/clients/publicQueries.ts:325-338 | grouping what was read gives an invoice exactly its live credit, whichever other invoices were read |
| `Portal.SummarizePortalOutstanding` | features/clients/services/portalStatement.ts:13-25 | the loop computes the summary function |
| `Portal.SummaryConserves` | features/clients/services/portalStatement.ts:8-25 | one positive line for each currency, and no cent lost |
| `Portal.SummaryByCurrency` | features/clients/services/portalStatement.ts:13-25 | each currency's line is what is owed in it |
| `Portal.SummaryInOrder` | features/clients/services/portalStatement.ts:13-25 | the lines come in the order their currencies first had something owed |
| `Portal.PortalByCurrency` | features/clients/publicQueries.ts:95-134 | each line is the plain sum of what the client's live sent invoices in that currency still owe |
| `Portal.PortalOutstandingIsBalance` | features/clients/publicQueries.ts:95-134 | whatever page is shown, the portal's lines add up to the client's balance exactly when no live paid invoice still owes |
| `Numbering.NumbersAreGapFree` | features/contracts/mutations.ts:452-469 | over every interleaving of claims, commits and rollbacks, each counter is its start plus the committed documents, numbered distinctly with no gap |
| `Numbering.CreationsMove` | features/contracts/mutations.ts:452-469 | a claim waits for whoever holds the settings row and then owns the counter's value, a commit bumps it and issues that number, a rollback leaves both as they were |
| `Numbering.FormatReadsBack` | features/contracts/services/contractNumber.ts:7-16 | a printed number is its prefix and at least the padding's digits, never truncated, without a leading zero once it outgrows the padding, and reads back as the number |
| `Numbering.PrintedNumbersDiffer` | features/contracts/services/contractNumber.ts:7-16 | under one prefix distinct numbers print distinct strings, even across a padding change |
| `Numbering.CollideExactly` | features/contracts/services/contractNumber.ts:10-16 | two printed numbers are alike exactly when the longer prefix extends the shorter and what it adds starts the shorter one's padded number |
| `Numbering.PrefixesCanCollide` | features/contracts/services/contractNumber.ts:10-16 | some numbers and widths print alike under two prefixes exactly when the longer is the shorter followed by digits only |
| `Numbering.PrefixesCollideUnordered` | database/schema/settings.ts:170-177 | in whichever order they were issued, two documents with distinct numbers, from one up and at the accepted widths, can print alike exactly when the longer prefix adds digits that are not all zeros and either do not start with one or are at most nine |
| `Numbering.LengtheningIsSafe` | features/contracts/services/contractNumber.ts:10-16 | a prefix that is lengthened, or replaced by one as long, never prints a later number as an earlier one was printed |
| `Numbering.PrefixChangeCollides` | database/schema/settings.ts:170-177 | after a change of prefix some later number can print as an earlier one did exactly when the new prefix is the shorter and what it drops is risky |
| `Numbering.LastDocumentIsMetAgain` | database/schema/settings.ts:170-177 | however many documents came before such a change, if what the old prefix added starts with no zero, the last of them is met again by a number still to come |
| `Numbering.RiskyInstance` | database/schema/contracts.ts:38-38 | an instance: number 1 under A1 and, after the change to A, number 11, which the unique index then refuses |
| `Numbering.Settings.ClaimNumber` | features/creditNotes/mutationContext.ts:78-95 | the claim returns the number it owns and leaves the counter one above it |
| `ClientAccess.StepKeepsInv` | features/clients/trashMutations.ts:41-49 | a deleted client holds no token and tokens stay unique, however link requests and deletes interleave |
| `ClientAccess.DeadStaysDead` | features/clients/publicQueries.ts:173-184 | a token no client holds any more opens nothing in any later state of any run |
| `ClientAccess.DoorClosedForGood` | features/clients/mutations.ts:207-211 | a rotation, a revocation and a soft delete each close the old door for good, a restore included |
| `ClientAccess.ClosedUntilRotated` | features/clients/trashMutations.ts:82-92 | a restored client stays without a portal until somebody rotates its link |
| `ClientAccess.ClientTable.RotateClientPortalLink` | features/clients/mutations.ts:193-234 | a live client then holds the new token, which opens its portal, and the old one is dead; otherwise nothing changes |
| `ClientAccess.ClientTable.RevokeClientPortalLink` | features/clients/mutations.ts:236-276 | revocation succeeds exactly on a live client with a token, which is then dead |
| `ClientAccess.ClientTable.SoftDeleteClient` | features/clients/trashMutations.ts:29-68 | a live client is then in the trash without its token, which is dead; nothing else changes |
| `ClientAccess.ClientTable.Restore` | features/clients/trashMutations.ts:70-110 | a restored client is live with no token |
| `ClientAccess.LinkChangeLands` | features/clients/mutations.ts:207-211 | a link request that writes leaves a live client with the minted token, or with none for a revocation, and touches no other client |
| `ClientAccess.ClientsMove` | features/clients/trashMutations.ts:41-92 | the trash takes a client and its token, and gives it back without one |
| `Contacts.ActionKeepsSlot` | features/clients/mutations.ts:291-404 | one at a time, no contact action trips the unique index, each keeps one live primary at most, and other clients' contacts are untouched |
| `Contacts.SlotAfter` | features/clients/mutations.ts:345-404 | who holds the primary slot after each action |
| `Contacts.ActionLands` | features/clients/mutations.ts:278-404 | when each action goes through, and what it leaves: its own row as asked for, the flag off the client's other live primaries if it claims the slot, and no other field changed |
| `Contacts.CreateFillsSlot` | features/clients/mutations.ts:302-315 | a successful creation ends with exactly one live primary |
| `Contacts.RunKeepsSlot` | database/schema/clientContacts.ts:31-36 | every serial run keeps at most one live primary for each client |
| `ContactRaces.ClaimantHoldsSlot` | features/clients/mutations.ts:517-536 | a transaction that claimed a client's slot holds every row that has it |
| `ContactRaces.StepKeepsInv` | features/clients/mutations.ts:291-404 | no statement, wait, trip, commit or rollback of interleaved contact transactions breaks the locks or the slots |
| `ContactRaces.DemotionLands` | features/clients/mutations.ts:521-536 | a demotion that finishes takes the flag off the rows its snapshot matched that still match, changes nothing else of them, and waits while somebody holds one |
| `ContactRaces.StoreLands` | features/clients/mutations.ts:500-536 | a store of a row nobody else holds is the transaction's own, waits while another may hold the slot it claims, and trips when that is taken |
| `ContactRaces.TransactionsMove` | features/clients/mutations.ts:278-330 | a commit makes all of a transaction's rows visible and frees them, a rollback none |
| `ContactRaces.InterleavedRunKeepsSlot` | database/schema/clientContacts.ts:31-36 | over every interleaving the committed contacts hold at most one live primary for each client |
| `ContactRaces.DemotionFreesUnlessMissed` | features/clients/mutations.ts:517-536 | a finished demotion leaves the slot taken, so that its promotion trips, exactly when a live primary was not in its statement's snapshot |
| `ContactRaces.OnlyACommitIsMissed` | features/clients/mutations.ts:517-520 | only another transaction's commit of that row as a live primary of the client makes a waiting demotion miss it |
| `ContactRaces.DemotionFreesSlot` | features/clients/mutations.ts:521-536 | over any stretch it waits, without a rival's commit a demotion leaves the slot free for its transaction |
| `ContactRaces.OnlyACommitTakesSlot` | features/clients/mutations.ts:517-520 | after the demotion too, only another transaction's commit of a live primary of that client can make the promotion trip |
| `ContactRaces.ConcurrentPromotionsTrip` | features/clients/mutations.ts:517-520 | two promotions: the second's demotion waits on the old primary, never sees the first's contact, and its promotion trips |
| `ContactRaces.ConcurrentFirstContactsTrip` | features/clients/mutations.ts:517-520 | two first contacts that both read an empty slot: the second insert waits while the first is open and trips once it has committed |
| `Contacts.DemotedFrees` | features/clients/mutations.ts:521-536 | the demotion takes the slot from exactly the client's other live primaries and changes nothing else of any row |
| `Contacts.ContactTable.CreateClientContact` | features/clients/mutations.ts:278-330 | creation succeeds exactly for a live client and fills its slot |
| `Contacts.ContactTable.UpdateClientContact` | features/clients/mutations.ts:332-373 | an update demotes the others only when it claims the slot |
| `Contacts.ContactTable.SetPrimaryClientContact` | features/clients/mutations.ts:375-420 | promotion succeeds exactly on a live contact |
| `Contacts.ContactTable.SoftDeleteClientContact` | features/clients/trashMutations.ts:112-153 | the contact is then in the trash, which frees the slot if it was the primary, and no other contact changes |
| `Contacts.ContactTable.RestoreClientContact` | features/clients/trashMutations.ts:155-227 | a restored contact takes the slot back only if it is free |
| `Proxy.RedirectsCountDown` | proxy.ts:99-187 | each redirect brings the request strictly closer to an answer, from at most three away |
| `Proxy.FollowEnds` | proxy.ts:30-187 | from every path and every combination of facts an answer comes within three redirects, and the session is dropped exactly for a set-up session without membership |
| `Proxy.DashboardNeedsEveryGate` | proxy.ts:99-187 | a dashboard path is served exactly when all gates are open: a user exists, a session, a named business, the second factor, a membership, and no password to change |
| `Proxy.BypassesExactly` | proxy.ts:30-98 | what else passes by the state machine and what it is answered: the public API always, token and invitation pages exactly as the limiter allows, metrics as the scrape gate says; every other path is guarded |
| `Proxy.StaticExactly` | proxy.ts:257-265 | the files served to anybody: the framework's own, three by name, and sixteen extensions in either case |
| `Proxy.VisitorLands` | proxy.ts:99-187 | following the redirects from any guarded page serves the page of the visitor's first unmet stage, or the page asked for |
| `Proxy.TargetIsNoBypass` | proxy.ts:257-315 | no redirect target slips past the state machine |
| `Proxy.WithoutClearingLoops` | proxy.ts:226-244 | without clearing the cookie, that session would be redirected for ever |
| `LocalStorage.Store.Get` | hooks/useLocalStorage.ts:47-73 | the value is the parse of the stored raw string or the default, and the reference is unchanged while the raw string is |
| `LocalStorage.Store.Set` | hooks/useLocalStorage.ts:75-88 | the write reaches storage or memory, and every listener is told |
| `LocalStorage.Store.OnStorage` | hooks/useLocalStorage.ts:90-106 | a storage event reaches the listeners only for this key or a clear |
| `LocalStorage.Store.SetThenGet` | hooks/useLocalStorage.ts:47-88 | a successful write is what the next read parses back, and reading again returns the same reference |

## Left out

- ForgetClient.Instance.ListErasureBlockingContracts: the collation is a parameter, any total preorder of strings.
- ErasureSpec.ErasedNamesNothing: log entries are covered only for the entity kinds the erasure lists; activity about payments, credit notes, time entries, expenses, recurring invoices and leads is outside the code and the claim.
- ErasureSpec.QueuedObjectsExact: the retry counters and row ids of the queue are not modelled, and the upper and lower case of ids in block trees is not either.
- ForgetClient.Instance.ForgetClientAction: role gates, the audit row and the drain itself are outside; the drain is `StorageActions.Store.DeleteBatch`.
- ContractHistory.ErasureIsWhole: erasure interleaves with contract requests only; other writers are covered by the repeatable-read snapshot the erasure model starts from.
- ContractActions.ContractTable.CreateContract: form parsing, the template, audit, events and job enqueueing are left out.
- ContractHistory.DeadStaysDead: is about resolving a token; a signing request that resolved it before a revocation may still finish, as in the code.
- PdfJobs.RunKeepsInv: uploads are never deleted in this model, so pointers set to NULL by an upload's deletion are outside it.
- StorageOrder.RowsKeepTheirObjects: actions run one at a time; concurrent storage actions are not modelled, and an upload shared between two clients is not either.
- BackupJobs.Instance.RunScheduledBackup: the dump, the archive format, retention choice and cadence arithmetic are parameters.
- Balances.SubqueryIsBalance: amounts are unbounded integers, not 64-bit columns; sorting and paging of the client list are left out.
- Settlement.RunKeepsPaidSettled: payments do not change along this run; they do in `InvoiceLock`.
- InvoiceLock.PaidMeansSettledThroughout: any live payment may be edited, so the refusal to edit a provider's payment is left out; so is the deadlock two inserts of notes on one invoice can end in, for which an aborted transaction stands.
- ArchiveLocks.OneWriter: one remote destination is modelled, and a process never loses a lock session while it lives.
- ContactRaces.InterleavedRunKeepsSlot: a store that waits is one that does nothing until it is tried again; a demotion keeps its snapshot.
- StorageActions.Store.AddAttachment: the sizes a record already holds and whether it is live are what its reads return.
- Proxy.FollowEnds: the framework's route matcher, the rate limiter's counters and the metrics admission are parameters.
- LocalStorage.Store.SetThenGet: JSON is a parser and a printer passed in, assumed to read this value back.
- Inserts and updates into the tables of `Schema` outside the erasure.
- Document rendering, merge data, mail delivery, real PostgreSQL, Redis, object store and browser behaviour.
- React components, form parsing, API shapes, translation, logging and role checks.
