# What the integrations promise, proved

A Dafny model of the parts of the repository that move other people's data: the
two-way Notion sync, the import of source records into Atomic rows, the refresh
lease and single-use signatures of the integration proxy, the bank statement
readers, the Todoist reconciler and the overlay merger. Every file is a module
of the same name; `dafny verify dfyconfig.toml` checks all of them.

How the pieces fit:

- **Reconcile** is the three-way merge that every sync decision goes through.
- **TextChunks, NotionModel, NotionRows, NotionViews** are the Notion
  projections and patches. Write-then-read round trips are stated with the exact
  condition under which they hold; **NotionReads** says what each of them shows,
  field by field.
- **NotionSync** is one invocation of the step machine: the cursor's stages, the
  effects, the eight-turn budget. **NotionSafety** and **NotionGuards** prove
  what every run keeps when anything may happen to either store between two
  invocations.
  **NotionPreview** is the preview's loops. **NotionHost** carries effects out
  literally and folds the checkpoint into the connection.
- **NotionFrames, NotionConvergence, NotionQuiet, NotionRuns,
  NotionCompletion, NotionReady, NotionOpening, NotionSettled** prove that,
  without outside edits, a conflict-free preview of tidy stores always runs to
  completion, leaves both sides of every change at the desired projection, and
  is followed by a preview whose run writes nothing on either side and
  completes too. **NotionMerges** says what is desired: every edit made on one
  side alone, told from the saved baseline.
- **ImportRecords** is the record importer: binding records to rows, parents
  first, and merging against a saved baseline. **ImportParents** proves what
  the binding loop leaves behind and when it reports a parent cycle;
  **ImportStore** applies intents; **ImportHistory** covers every history of
  imports and local edits; **ImportValues** and **ImportEdits** say
  what an import stores and what it does to every value of a row, **ImportReviews**
  when it goes through; **ImportRepeat**, **ImportSettles** and **ImportAppend** cover
  importing the same batch, or a changed append-only one, again.
- **RefreshLease** interleaves any number of callers over one connection row,
  one SQL statement, provider call or clock reading at a time; **RefreshTokens**
  says what it leaves in the row. **ReplayGuard**
  does the same for checks, sweeps and inserts of used signatures.
- **StableJson, Amounts, BankIdentity, BankImport** are the texts values are
  compared and named by; **JsonReading** reads the JSON ones back. **Mt940,
  Mt940Lines, Xml, XmlNesting, XmlPrinting, XmlForms** are the statement readers.
- **Todoist** follows task presence over complete and partial reads. **Overlay**
  is target parsing and merging.
- **Wrappers**, **Characters** and **Ordering** are shared.

Loops and in-place updates of the source are methods and classes here, each
proved equal to a specification function; the properties are then lemmas about
those functions.

Where the code and its documentation disagree, the model follows the code:

- `signature.rs` and `security.rs` say a signed request can never be accepted
  again after its record is swept. Both ends of the clock window are accepted
  and the retention is exactly twice the skew, so a record written at or after
  the window's closing instant can be a second acceptance
  (`ReplayGuard.LateWriteAcceptsTwice`); `ReplayGuard.AcceptedOnce` states the
  bound that rules it out.
- `money/plugin.ts` says a reimport of the same statement proposes nothing. The
  import date is one of the append-only values, so that holds only on the day
  of the first import (`BankImport.ReimportedFile`).
- `refresh_connection` goes on with the credential it had when its reread of
  the row fails, and can then send a refresh token that was already exchanged
  (`RefreshLease.FailedReloadSpendsAgain`); a granted token that could not be
  stored has the same effect (`RefreshLease.FailedStoreSpendsAgain`).

## Model

| member | source | states |
|---|---|---|
| Reconcile.ReconcileMembers | devonian/src/reconcileRecord.ts:60-102 | the property loop gives every property its verdict, in whatever order properties come |
| Reconcile.Converges | devonian/src/reconcileRecord.ts:35-102 | carrying out the decision makes both sides equal exactly when it reports no conflict and neither side is missing after a sync |
| Reconcile.KeepsOneSidedChanges | devonian/src/reconcileRecord.ts:66-100 | a change made on one side only reaches both sides; a property neither side changed stays |
| Reconcile.ClashesExactly | devonian/src/reconcileRecord.ts:66-100 | a property conflicts exactly when both sides changed it, differently |
| Reconcile.Settles | devonian/src/reconcileRecord.ts:35-102 | on the merged record a further round only acknowledges it, with empty patches |
| Reconcile.Symmetric | devonian/src/reconcileRecord.ts:35-102 | swapping the sides swaps the decision |
| Reconcile.RecordsExactly | devonian/src/reconcileRecord.ts:44-76 | a deletion reaches the other side exactly where that one still holds the baseline and is a conflict otherwise; records are created only where never seen; an unseen side changes nothing |
| TextChunks.Chunk | integrations/notion/model.ts:380-394 | the chunking loop cuts the text into the specified parts |
| TextChunks.ChunksCover | integrations/notion/model.ts:380-394 | parts are non-empty, at most 2000 units, and concatenate to the text |
| TextChunks.ChunksKeepPairs | integrations/notion/model.ts:383-390 | no cut separates the halves of a surrogate pair |
| TextChunks.ChunkLimit | integrations/notion/model.ts:391-394 | up to 199,900 units a text always fits 100 parts; over 200,000 it never does |
| TextChunks.ChunkCountPlain | integrations/notion/model.ts:380-394 | without surrogates the part count is exactly the rounded-up quotient by 2000 |
| NotionModel.PlainText | integrations/notion/model.ts:236-259 | plain parts give their concatenation; one formatted part refuses the text |
| NotionModel.ProjectPage | integrations/notion/model.ts:279-312 | reads every mapped field, or reports the first that cannot be read |
| NotionModel.PagePatch | integrations/notion/model.ts:368-403 | writes exactly the fields whose desired value differs from the previous projection |
| NotionModel.PageRoundTrip | integrations/notion/model.ts:279-403 | a page read after its patch gives the desired projection, multi-selects sorted |
| NotionModel.PageRoundTripExact | integrations/notion/model.ts:279-403 | the round trip is exact precisely when desired multi-selects are sorted and nothing unmapped is desired |
| NotionModel.PagePatchExists | integrations/notion/model.ts:260-278 | a patch exists exactly when every value is valid and every changed text fits 100 parts |
| NotionModel.PageProjectionCanonical | integrations/notion/model.ts:279-312 | what is read from a page is itself exactly writable: valid, sorted, only mapped fields |
| NotionReads.PageReadsExactly | integrations/notion/model.ts:260-312 | a page is read exactly when it is a live page of the data source whose mapped properties have their type and a fitting value, and as those values |
| NotionReads.PatchWritesExactly | integrations/notion/model.ts:368-403 | a page patch holds exactly the mapped values that differ, texts in plain parts within Notion's limits |
| NotionRows.ProjectRow | integrations/notion/model.ts:313-367 | reads every mapped field of a row of the table, resolving the title's two homes |
| NotionRows.PatchRow | integrations/notion/model.ts:404-429 | stores every field, removes empty ones and mirrors the title into the name |
| NotionRows.RowRoundTrip | integrations/notion/model.ts:313-429 | a row that carries the patch projects to the desired projection, multi-selects sorted |
| NotionRows.RowRoundTripExact | integrations/notion/model.ts:313-429 | the row round trip is exact precisely when the desired projection is canonical |
| NotionRows.RowProjectionCanonical | integrations/notion/model.ts:313-367 | what is read from a row is canonical |
| NotionReads.RowReadsExactly | integrations/notion/model.ts:313-367 | a row is read exactly when it is a row of the table whose mapped properties fit, the title from whichever of its two homes changed since the last sync |
| NotionViews.ViewRoundTrip | integrations/notion/model.ts:431-551 | a view patch that goes through reads back as desired exactly when name, kind, columns and group pass their checks |
| NotionViews.ViewPatchKeepsSettings | integrations/notion/model.ts:506-551 | shown columns keep their provider-only settings, hidden ones are only hidden, the rest of the configuration stays |
| NotionViews.LocalViewRoundTrip | integrations/notion/model.ts:473-505 | an unrestricted Atomic view that carries the patch shows the desired projection |
| NotionReads.ViewReadsExactly | integrations/notion/model.ts:431-472 | a provider view is read exactly when nothing in it would be lost, as its name, shown columns, grouping and kind |
| NotionReads.LocalViewReadsExactly | integrations/notion/model.ts:473-505 | the same of an Atomic view |
| NotionReads.ViewPatchExactly | integrations/notion/model.ts:506-552 | a view patch renames exactly where the name differs, and rearranges columns and grouping exactly where those do, leaving every other setting |
| NotionReads.SchemaChecksExactly | integrations/notion/plugin.ts:88-126 | the data source passes its check exactly when it is the connected one and every field and option is still mapped as it was |
| NotionReads.ReadsProviderExactly | integrations/notion/plugin.ts:136-155 | reading the provider's side of a change gives exactly what the page, field or view there shows |
| NotionReads.ReadsAtomicExactly | integrations/notion/plugin.ts:128-173 | reading the Atomic side gives exactly what the resource shows, a row against the baseline saved for its page |
| NotionSync.TakeTurns | integrations/notion/plugin.ts:362-542 | the turn loop with its budget of eight |
| NotionSync.Step | integrations/notion/plugin.ts:329-542 | one invocation: checks, cursor stages, effect returned |
| NotionSync.SourceIdInjective | integrations/notion/plugin.ts:438-445 | import identities of different pages differ |
| NotionSafety.HeldSound | integrations/notion/plugin.ts:335-542 | over any visits the held cursor keeps one record per finished change |
| NotionSafety.FinishedChangesAgreed | integrations/notion/plugin.ts:519-538 | every finished change was seen with both sides at desired, whatever happened between invocations |
| NotionSafety.AtomicOnlyAfterRemote | integrations/notion/plugin.ts:418-512 | no Atomic write goes out unless the provider shows desired at that moment |
| NotionSafety.CheckpointCoversEveryChange | integrations/notion/plugin.ts:362-369 | the checkpoint carries one record per change, each seen agreed before |
| NotionSafety.EffectIdsOnce | integrations/notion/plugin.ts:370-512 | effects leave in one fixed order, so no effect id is emitted twice in a run |
| NotionSafety.RunsEnd | integrations/notion/plugin.ts:362-542 | at most three moving invocations per change and one checkpoint; a rank falls with each |
| NotionSafety.WithinBudget | integrations/notion/plugin.ts:362-542 | an invocation takes at most three turns, so the budget error is unreachable |
| NotionSafety.ChangesStartAsPreviewed | integrations/notion/plugin.ts:370-413 | a change under way or finished was seen exactly as previewed when it was started |
| NotionGuards.HeldPointed | integrations/notion/plugin.ts:362-542 | whatever happens between invocations, cursor and records speak of the change's own provider object |
| NotionGuards.AtomicOverwritesNoEdit | integrations/notion/plugin.ts:418-512 | an Atomic write goes out only where that visit shows what was previewed or what is desired, to the change's own resource, while no other row claims its page |
| NotionGuards.ExternalOverwritesNoEdit | integrations/notion/plugin.ts:370-413 | a provider request goes out only where that visit shows both sides as previewed, to the change's own object |
| NotionGuards.CreatedNeedsReceipt | integrations/notion/plugin.ts:414-417 | a created page is taken on only from a receipt of success that shows a readable page, and by the id in it |
| NotionGuards.WrittenNeedsReceipt | integrations/notion/plugin.ts:513-518 | an Atomic write counts only with a receipt that names its resource, which is the one recorded |
| NotionGuards.RunsOnlyApproved | integrations/notion/plugin.ts:329-334 | nothing runs but an approved preview of the connected data source without conflicts |
| NotionHost.CommitCheckpoint | integrations/notion/host/browser-sync.ts:78-104 | accepts exactly distinct converged records and then holds all of them |
| NotionConvergence.PageLands | integrations/notion/plugin.ts:370-413 | after the provider write the page projects to desired |
| NotionConvergence.SchemaLands | integrations/notion/plugin.ts:370-413 | after the rename the data source shows the desired name and still passes its check |
| NotionConvergence.ViewLands | integrations/notion/plugin.ts:370-413 | after the view patch the view projects to desired |
| NotionConvergence.LocalWriteLands | integrations/notion/plugin.ts:418-512 | after the Atomic write the resource projects to desired and carries its marks |
| NotionConvergence.PageWriteTouches | integrations/notion/plugin.ts:427-512 | a page write touches only the mapped properties, the name, the identities and the arrival mark of a later new row |
| NotionCompletion.QuietRunConverges | integrations/notion/plugin.ts:329-542 | without outside edits no state of a run fails, the run is bounded, it stops exactly when it is complete, and there both sides of every change are at desired under the recorded ids |
| NotionCompletion.QuietRunCompletes | integrations/notion/plugin.ts:329-542 | every such run, wherever it is, is the beginning of a complete one |
| NotionCompletion.NeverStuck | integrations/notion/plugin.ts:362-542 | in every state on the way a turn is possible: nothing fails, the checkpoint is accepted, an unused id exists |
| NotionRuns.StepStaysOnTrack | integrations/notion/plugin.ts:362-542 | every round of the host's loop keeps the invariant from which no turn can fail |
| NotionPreview.Add | integrations/notion/plugin.ts:182-217 | a candidate becomes a conflict or a change with the merged projection |
| NotionPreview.PreviewRows | integrations/notion/plugin.ts:243-257 | rows are split by page identity, duplicates refused |
| NotionPreview.PreviewPages | integrations/notion/plugin.ts:259-303 | every scanned page is paired with its row, repeats refused |
| NotionPreview.Preview | integrations/notion/plugin.ts:174-327 | the whole preview, including what went missing on either side |
| NotionMerges.AddMerges | integrations/notion/plugin.ts:182-217 | a candidate is a conflict exactly when its identity was lost or both sides moved a value apart, and otherwise a change that desires every one-sided edit |
| NotionMerges.CandidatesExactly | integrations/notion/plugin.ts:219-303 | a preview considers exactly every mapped field, every bound view, every listed row that names no page and every listed page with the row that names it |
| NotionMerges.PreviewMerges | integrations/notion/plugin.ts:174-327 | so does the whole preview, candidate by candidate in order, with the lost rows and pages after the conflicts |
| NotionMerges.ChangesMerge | integrations/notion/plugin.ts:182-217 | every change of a preview desires, value by value, what one side alone changed since the saved baseline |
| NotionMerges.EditsReachBothSides | integrations/notion/plugin.ts:174-542 | when the run of an approved preview stops, both sides show one value for every member, the edited one wherever one side alone was edited |
| NotionReady.CandidateSettable | integrations/notion/plugin.ts:182-257 | what a clean candidate desires can be written on both sides |
| NotionReady.FinishedWasWritable | integrations/notion/plugin.ts:370-538 | whatever happens between invocations, a change that ends agreed was writable: the condition of the convergence theorem is necessary |
| NotionReady.OverlongTextNeverSyncs | integrations/notion/model.ts:391-394 | a changed text of more than 200,000 units never finishes |
| NotionOpening.PreviewIsReady | integrations/notion/plugin.ts:174-327 | a conflict-free preview of tidy stores with writable changes opens a run that cannot fail |
| NotionSettled.NextPreviewIsIdle | integrations/notion/plugin.ts:174-327 | the preview after a completed run has no conflicts and nothing to change |
| NotionSettled.IdleRunWritesNothing | integrations/notion/plugin.ts:362-542 | the run of an idle proposal writes nothing on either side |
| NotionSettled.NextPreviewIsRemembered | integrations/notion/plugin.ts:182-241 | the connection already holds every change of that preview under its own id |
| NotionSettled.IdleRunCompletes | integrations/notion/plugin.ts:362-542 | that run stops exactly when it is complete: its one checkpoint was accepted and moved only the revision |
| NotionSettled.SyncCompletes | integrations/notion/plugin.ts:174-542 | a conflict-free preview with writable changes, once approved and left alone, can always be run to completion |
| NotionSettled.SyncThenNothing | integrations/notion/plugin.ts:174-542 | preview, run and next preview together: the run stops only complete and converged, the next one writes nothing but its checkpoint and completes too |
| ImportRecords.Merged | integrations/localthought/plugin.js:222-256 | the property loop gives every property its verdict, in whatever order properties come |
| ImportRecords.FindMatch | integrations/localthought/plugin.js:140-180 | finds the row by source id, else by legacy value, and what stops it |
| ImportRecords.BindRecords | integrations/localthought/plugin.js:125-186 | passes over the pending records until all are bound or none can be |
| ImportRecords.ImportBatch | integrations/localthought/plugin.js:97-259 | binds, then proposes one intent or problem per record in batch order |
| ImportValues.ResolvesToMirror | integrations/localthought/plugin.js:110-123 | a value resolves to itself with every `local:` reference replaced by the record's row, and to nothing else |
| ImportValues.PureIsIdentifier | integrations/localthought/plugin.js:2-22 | every spelling of an Atomic identifier compares as the identifier, and anything else as written |
| ImportValues.FindsByProperties | integrations/localthought/plugin.js:140-180 | in a destination without reviewed duplicates the row found is the one with the source id, else the one unimported row with the legacy value, of the record's classes |
| ImportReviews.ReviewDecides | integrations/localthought/plugin.js:63-84 | several rows of one source are one record exactly where a single review still covers them all as they stand; otherwise the import stops and names them |
| ImportReviews.ImportsExactly | integrations/localthought/plugin.js:187-222 | a bound batch is imported exactly when no record sets import metadata, every reference names a record of the batch and every saved baseline is valid |
| ImportValues.ImportStores | integrations/localthought/plugin.js:97-259 | after an import every record has a row: one found by the rows' own properties, or a new one holding exactly the record's values; old values changed only to what such a record says |
| ImportParents.CycleExactly | integrations/localthought/plugin.js:101-186 | when no other check fails, a parent cycle is reported exactly when some local parent chain never leaves the batch |
| ImportParents.BoundParentsFirst | integrations/localthought/plugin.js:125-186 | every record is bound once, after its parent in the batch, under an identity no other record has |
| ImportEdits.ImportWritesExactly | integrations/localthought/plugin.js:97-259 | after an import a value of an old row is the source's exactly where a record that is not append-only and has no conflict moves an unedited value; all others stay |
| ImportEdits.ConflictsReported | integrations/localthought/plugin.js:187-259 | an import reports a conflict on a row exactly when some record that found it has a value differing from an unimported row, from an append-only baseline, or moved apart on both sides |
| ImportEdits.ImportKeepsEdits | integrations/localthought/plugin.js:97-259 | no import touches a value edited locally since its baseline |
| ImportEdits.AppendKeepsValues | integrations/localthought/plugin.js:222-256 | a row that only append-only records found keeps all its values |
| ImportEdits.HistoryKeepsEdits | integrations/localthought/plugin.js:97-259 | both hold at every import of every history |
| ImportEdits.EditOutlivesImports | integrations/localthought/plugin.js:222-256 | a local edit outlives every later import, whatever is edited besides, until the source says the same |
| ImportHistory.ImportKeepsTidy | integrations/localthought/plugin.js:97-259 | applying an import never gives two rows one source id under one parent |
| ImportHistory.HistoryStaysTidy | integrations/localthought/plugin.js:97-259 | nor does any history of imports and local edits from an empty destination |
| ImportRepeat.RepeatProposesNothing | integrations/localthought/plugin.js:97-259 | importing a batch again right after applying it proposes no intents, whatever the first import reported |
| ImportRepeat.MintKeepsEquality | integrations/localthought/plugin.js:110-123 | replacing local references by new subjects changes no comparison with a stored value |
| ImportSettles.RepeatLeavesUntouched | integrations/localthought/plugin.js:97-259 | after a clean import that gave every record its own row, the repeat finds every record and leaves every row untouched |
| RefreshLease.Connection.ClaimRefreshLease | integration-proxy/src/security.rs:649-659 | takes the lease exactly when nobody holds it or it has lapsed |
| RefreshLease.Connection.StoreRefreshedConnection | integration-proxy/src/security.rs:662-677 | stores the credential and clears the lease |
| RefreshLease.Connection.ReleaseRefreshLease | integration-proxy/src/security.rs:681-691 | clears the lease and keeps the credential |
| RefreshLease.OkHoldsStored | integration-proxy/src/proxy.rs:124-169 | whatever fails and however late, a caller that returns Ok holds a credential that was in the row during its call |
| RefreshTokens.OkIsFresh | integration-proxy/src/proxy.rs:69-169 | that credential never expires, was seen more than 30 seconds from expiring during the call, or was just granted to the caller and stored by it |
| RefreshTokens.StoredWasGranted | integration-proxy/src/proxy.rs:76-118 | every later stored credential is a grant: its access token, its refresh token or else the one sent, its lifetime from the answer |
| RefreshTokens.StaysRefreshable | integration-proxy/src/proxy.rs:113-115 | a connection that starts with a refresh token always has one |
| RefreshTokens.WaitsFiftyTimes | integration-proxy/src/proxy.rs:124-169 | over any run a caller looks, returns where its credential is fresh, and gives up after exactly fifty waits |
| RefreshTokens.LoserGetsResult | integration-proxy/src/proxy.rs:120-123 | a caller that lost the race returns the winner's credential without spending a token |
| RefreshTokens.HolderRereads | integration-proxy/src/proxy.rs:142-156 | a caller that got the lease takes the row as it is now, and sends a token only where that is about to expire |
| RefreshLease.OneRefresher | integration-proxy/src/proxy.rs:124-169 | while holders finish within their lease, at most one caller is refreshing |
| RefreshLease.VersionSpentOnce | integration-proxy/src/proxy.rs:76-118 | and a stored credential's refresh token is sent again only after every earlier sending failed |
| RefreshLease.TokenSpentOnce | integration-proxy/src/proxy.rs:76-118 | with a provider that rotates tokens, the same holds of the token itself |
| RefreshLease.LapsedLeaseSpendsTwice | integration-proxy/src/proxy.rs:137-166 | a run without failures in which a holder outlives its lease and one token is sent twice |
| RefreshLease.FailedReloadSpendsAgain | integration-proxy/src/proxy.rs:144-152 | a run within all leases in which nothing fails but a reread sends an exchanged token again |
| RefreshLease.FailedStoreSpendsAgain | integration-proxy/src/proxy.rs:137-169 | a run within all leases in which nothing fails but one store sends an exchanged token again |
| ReplayGuard.Challenges.ConsumeNonce | integration-proxy/src/security.rs:244-252 | sweeps expired records, then accepts exactly an unrecorded message |
| ReplayGuard.MessageCoversAll | integration-proxy/src/signature.rs:60-66 | two requests share a signed message exactly when method, URL, timestamp and body digest agree |
| ReplayGuard.MessageLines | integration-proxy/src/signature.rs:60-66 | the five lines of the message, in order |
| ReplayGuard.PassesIffClose | integration-proxy/src/signature.rs:110-117 | a check passes exactly when clock and timestamp differ by at most 300,000 ms |
| ReplayGuard.TriedWasClose | integration-proxy/src/signature.rs:110-153 | over any interleaving a record is written only for a message some check found that close |
| ReplayGuard.AcceptedIff | integration-proxy/src/security.rs:244-252 | a message is accepted exactly when every earlier acceptance was swept ten minutes after it or later |
| ReplayGuard.SecondAcceptanceIsLate | integration-proxy/src/signature.rs:115-153 | a second acceptance is written five minutes or more after the signed timestamp |
| ReplayGuard.AcceptedOnce | integration-proxy/src/signature.rs:115-153 | if records are written strictly before the window closes, a message is accepted at most once over any interleaving |
| ReplayGuard.LateWriteAcceptsTwice | integration-proxy/src/signature.rs:115-153 | the bound is exact: from the closing instant on a second acceptance can happen |
| StableJson.Stringified | integrations/notion/plugin.js:49-80 | the recursive printer and its loops give the specified text |
| StableJson.SameTextIffEqual | integrations/notion/plugin.js:49-80 | two JSON trees have one stable text exactly when they are structurally equal |
| StableJson.EqualPrintsAlike | integrations/notion/model.ts:119-136 | structural equality, key order aside, implies one text |
| JsonReading.StableTextIsJson | integrations/notion/plugin.js:49-80 | a JSON reader reads every stable text whole, as a value equal to the one printed |
| Amounts.DecimalIsExact | integrations/money/parser.ts:24-30 | a raw amount is accepted exactly in its format and read as the canonical decimal worth what its digits say |
| Amounts.UnitsOfDecimal | integrations/money/parser.ts:252-259 | printing any integer amount and reading it back gives the amount |
| Amounts.DecimalOfUnits | integrations/money/parser.ts:31-36 | reading any canonical decimal and printing it gives the string |
| Amounts.CanonicalUnique | integrations/money/parser.ts:24-36 | equal amounts have equal strings |
| Amounts.ZeroIsUnsigned | integrations/money/parser.ts:29 | zero has one string, without a sign |
| Amounts.FormatsAgree | integrations/money/camt053.ts:137-150 | the dot form and the comma form give one string exactly when they spell one amount |
| Amounts.CamtAmountsExactly | integrations/money/camt053.ts:137-150 | a camt.053 amount is accepted exactly when it is 1 to 15 digits, perhaps with a dot and at most 5 decimals |
| BankIdentity.IdentityIffKey | integrations/money/identity.ts:39-72 | two identity strings are equal exactly when what they name is equal |
| BankIdentity.FingerprintIffContent | integrations/money/identity.ts:48-60 | two fingerprints are equal exactly when the imported content is |
| BankIdentity.Entries | integrations/money/identity.ts:32-92 | lists a file's entries in order, and refuses exactly the files in which two entries name the same thing, saying whether their content agrees |
| BankIdentity.EntriesInOrder | integrations/money/identity.ts:36-92 | every transaction of a file is listed once, in file order, with its statement, its place there and its bank reference unless that is NONREF |
| BankImport.LocalIdsDistinct | integrations/money/plugin.ts:197-231 | statement records never repeat a local id |
| BankImport.StatementIdentityIff | integrations/money/plugin.ts:199-206 | statement identities are equal exactly when format, account, currency, number and period are |
| ImportAppend.AppendRepeatReports | integrations/localthought/plugin.js:97-259 | after a clean import, an append-only version with other values writes nothing and reports one conflict for each changed record, in order, with exactly the changed values |
| BankImport.ReimportedFile | integrations/money/plugin.ts:194-234 | after a clean import, the same file's statements are left untouched on the same day; on any other nothing is written and each statement is one conflict, on the import date alone |
| BankImport.StatementsAreStored | integrations/money/plugin.ts:194-234 | importing a file gives every new statement a row that says what the statement says, value by value |
| Mt940.Reader.Take | integrations/money/parser.ts:146-240 | one field moves the machine to the specified state or is refused with its message |
| Mt940.ParseFields | integrations/money/parser.ts:125-250 | feeds every field in order, refuses an unclosed statement and narratives that JSON would read |
| Mt940.JsonNarratives | integrations/money/parser.ts:292-318 | the counting loops find a narrative exactly when some transaction has one |
| Mt940.ReadFields | integrations/money/parser.ts:109-123 | collects the fields of a file line by line |
| Mt940.FieldsKeepLines | integrations/money/parser.ts:109-123 | the fields written out again are the file's lines, without block markers and blank lines |
| Mt940Lines.LinesReadExactly | integrations/money/parser.ts:109-123 | a file has fields exactly when every line that continues a field continues a 61 or an 86 |
| Mt940Lines.TagsExactly | integrations/money/parser.ts:113 | a line begins a field exactly when it is two digits and perhaps a letter between colons, and its value |
| Mt940Lines.EnvelopesExactly | integrations/money/parser.ts:112 | the lines skipped are exactly the SWIFT block markers |
| Mt940.ReaderInvariant | integrations/money/parser.ts:125-240 | in every reachable state all statements but the open one are closed and reconciled, and the transactions are what the fields say |
| Mt940.ReaderHeads | integrations/money/parser.ts:146-186 | every statement has the account and number named by the last such fields before it |
| Mt940Lines.DatesAreDays | integrations/money/parser.ts:38-51 | six digits are read exactly when they spell a calendar day from 1970 to 2069, as that day |
| Mt940Lines.BookingReads | integrations/money/parser.ts:73-83 | a booking day is of the year that puts its month nearest to the value day's |
| Mt940Lines.BalancesExactly | integrations/money/parser.ts:53-62 | a text is a balance exactly when it is spelled like one; credit is positive, debit negative |
| Mt940Lines.EntriesExactly | integrations/money/parser.ts:64-96 | a field 61 is read exactly when it spells an entry, as that entry: negative for a debit or a reversed credit |
| Mt940Lines.LastIsDescribed | integrations/money/parser.ts:192-214 | the last transaction is the last field 61, described by that field and by every narrative since, one below the other |
| Mt940Lines.FieldsSpell | integrations/money/parser.ts:125-250 | in a file that is read every field 61 spells an entry and every balance field a balance |
| Mt940.ReadFilesReconcile | integrations/money/parser.ts:98-250 | every read statement runs from its opening to its closing field, both in one currency, is of the account and number named before it, reconciles exactly and in a proper period; the transactions are the 61 lines, each once, in order, at most 500, none with a JSON narrative |
| Xml.ParseXml | integrations/money/camt053.ts:74-108 | the reader's position and stack loop |
| Xml.ParseIsBuild | integrations/money/camt053.ts:74-108 | reading while lexing equals lexing everything and running the stack |
| XmlNesting.AcceptsIffNested | integrations/money/camt053.ts:86-105 | a token sequence is accepted exactly when its tags are well nested up to prefix |
| XmlNesting.BuildsContent | integrations/money/camt053.ts:86-105 | nested content is read as the tree it stands for |
| XmlPrinting.DecodeEscape | integrations/money/camt053.ts:36-60 | decoding undoes escaping with the predefined entities, for every text |
| XmlPrinting.NumericReference | integrations/money/camt053.ts:36-60 | a decimal or hexadecimal reference stands for the character of that number |
| Xml.LocalDropsPrefix | integrations/money/camt053.ts:34 | the prefix up to the first colon of a name goes |
| XmlPrinting.PrintedParses | integrations/money/camt053.ts:36-108 | every element tree, printed with the predefined entities, is read back as itself |
| XmlForms.CommentLexes | integrations/money/camt053.ts:78 | a comment is skipped up to its first end |
| XmlForms.CDataLexes | integrations/money/camt053.ts:78-85 | a CDATA section is text as it stands, up to its first end |
| XmlForms.InstructionLexes | integrations/money/camt053.ts:78 | a processing instruction is skipped up to its first end |
| XmlForms.DoctypeLexes | integrations/money/camt053.ts:78 | a document type is skipped up to the first closing angle |
| XmlForms.CloseTagLexes | integrations/money/camt053.ts:78 | an end tag may hold white space after its name |
| XmlForms.EmptyElementLexes | integrations/money/camt053.ts:92-100 | a tag that closes itself is an empty element with its attributes |
| XmlForms.SpacedAttributeLexes | integrations/money/camt053.ts:62-70 | an attribute is read in either quote, with white space before it and around its equals sign |
| Todoist.ReconcileTasks | integrations/issue-tracker/todoist.ts:250-323 | collects the previous tasks by id, stamps the listed ones, carries the others and counts |
| Todoist.KeptExactly | integrations/issue-tracker/todoist.ts:264-266 | exactly the last row of each previous task id is kept |
| Todoist.ReadTellsApart | integrations/issue-tracker/todoist.ts:250-305 | whatever was stored before, after a read every task is there once |
| Todoist.ReadKeepsSound | integrations/issue-tracker/todoist.ts:250-323 | a read keeps every task once, with done true exactly when presence is completed |
| Todoist.ReadKeepsTasks | integrations/issue-tracker/todoist.ts:275-305 | the tasks after a read are those before it and those it lists |
| Todoist.AbsentTask | integrations/issue-tracker/todoist.ts:215-305 | a partial read or a settled presence changes nothing; otherwise last-seen and completion move only when Todoist returned the task by id |
| Todoist.RowsAfterRead | integrations/issue-tracker/todoist.ts:123-305 | column by column, every task row after a read: a listed task as Todoist listed it, any other as its presence and Todoist's answer decide |
| Todoist.ReappearedCounts | integrations/issue-tracker/todoist.ts:268-274 | the summary counts each task that was not active and is listed again, once |
| Todoist.ReadsExactly | integrations/issue-tracker/todoist.ts:261-263 | a read goes through exactly with an instant to the minute and an ontology free of the added columns |
| Todoist.CountsSum | integrations/issue-tracker/todoist.ts:307-320 | the presence counts sum to the number of tasks |
| Todoist.HistoryIsSound | integrations/issue-tracker/todoist.ts:250-323 | over every history of reads the rows hold each task ever listed, once, and truthfully |
| Overlay.ParsedTarget | integration-proxy/src/catalog.rs:505-529 | the key loop of a target |
| Overlay.ParsesExactlyWritten | integration-proxy/src/catalog.rs:505-529 | parsing undoes writing any key path, and accepts nothing else |
| Overlay.Document.MergeAtTarget | integration-proxy/src/catalog.rs:493-503 | merges into an existing target or leaves the document and says why |
| Overlay.ActionIdempotent | integration-proxy/src/catalog.rs:493-540 | applying an action twice equals applying it once |
| Overlay.MergeAtKeeps | integration-proxy/src/catalog.rs:493-540 | every path not set by the update and not replaced above keeps its value |
| Overlay.MergeAtSets | integration-proxy/src/catalog.rs:493-540 | every value of the update is in the document afterwards |
| Overlay.ActionReads | integration-proxy/src/catalog.rs:493-540 | the whole document after an action, path by path: what the update says, what was there where it says nothing, objects on the way to the target |
| Overlay.AppliesIffPresent | integration-proxy/src/catalog.rs:493-503 | an action applies exactly when its target names an existing place |

## Left out

- HTTP, PostgreSQL connections, OAuth metadata, routing, HTML and cookies; each SQL statement keeps only its effect on the row.
- Cryptography: signatures are assumed to check out, SHA-256 is assumed to tell messages apart, and envelopes are opaque.
- JavaScript's regular expressions, `Date` and `JSON.parse`: replaced by lexers and a calendar rule. `Mt940` takes what `JSON.parse` accepts as a parameter.
- Notion: uuid spelling, pagination batches (a scan is one sequence of pages), request building and receipts' JSON; ids are opaque strings, numbers are reals, payloads are typed by property kind.
- Notion: the order of conflicts inside one record; the property loops are proved for every order instead.
- Notion: the provider and the host apply patches literally and mint unused, non-empty ids. The saved-run storage of the host is not part of this model.
- NotionSettled.SyncThenNothing: assumes a mapping without clashes (`GoodConfig`), a table whose rows are consistent (`TidyTable`), distinct bound resources (`TidyResources`) and changes that can be written (`Writable`); `NotionReady.FinishedWasWritable` shows the last is necessary. The run is only taken to have no round left; `NotionSettled.SyncCompletes` gives such a run.
- ImportHistory.HistoryStaysTidy: local edits change values, add and remove rows, but leave import metadata alone and write no `local:` text; reviewed duplicates are modelled in matching, but no history contains a review.
- ImportRepeat.RepeatProposesNothing: the host is taken to replace `local:` references of created rows by subjects used nowhere else, also inside the saved baseline; a second import may still be refused, which also proposes nothing. `ImportSettles.RepeatLeavesUntouched` excludes the refusal.
- BankImport.ReimportedFile: covers the statement records of a file, not its transaction records, and takes import dates that are not `local:` references.
- RefreshLease.OneRefresher: the process clock and the database clock are one clock; unrelated writers of the row are not modelled.
- ReplayGuard.AcceptedOnce: the process clock and the database clock are one clock that never runs backwards.
- StableJson: strings are sequences of Unicode scalar values, so lone surrogates and their escapes are not modelled; `toJSON`, cycles and `undefined` members do not occur in JSON trees.
- Xml: numeric references to surrogates are refused here, while JavaScript would produce a lone surrogate; finished elements join their parent when they close, not when they open, which no result can tell apart.
- The camt.053 statement builder above the XML tree (`parseCamt053`): it checks each statement once with the same reconciliation, and its remaining branches only select texts.
- BankImport.StatementsAreStored: for configurations that give every meaning its own property, and texts that are not `local:` references.
- ImportValues.FindsByProperties: destinations without reviewed duplicates; `ImportRecords.FindMatch` covers reviews.
- Mt940: statements are values in a list whose last one is replaced, where the source keeps a reference to it.
- Overlay: the document is one value that a method replaces; sharing inside it is not modelled.
- The bank importer's overlap check and its transaction rows, whose merging is the general importer's; warnings and problem texts.
- `acknowledgedBaseline`, `DevonianIndex.ts`, `events.ts`, `DevonianTable.ts`, the calendar and issue-tracker adapters and the capability checks: no state machine beyond what is covered, or single lookups.
