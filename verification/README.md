# DumpLedger, verified

A Dafny model of DumpLedger, the service that takes crash-dump uploads through a ledger and a file vault, exports and
imports whole instances, parses untrusted binaries and pushes its audit log to webhooks, with proofs of what those parts
are for. `dafny verify dfyconfig.toml` checks the whole project.

The code that changes state is modelled as it is written: `SqliteLedger`, `MemoryVault`, `Engine`, `TarWriter`,
`ImportSession`, `Dispatcher`, `WebhookStorage`, `Scanner`, `Source`, `MetadataBudget` and `FixedWindowRateLimiter` are
classes whose methods update fields in loops. Each method is proved to end in the state a specification function gives,
and the results about runs are proved of those functions.

- **Lifecycle and recovery** (`Domain`, `Vault`, `Ledger`, `Engine`, `Coupling`, `History`, `Runs`, `Safety`, `Intake`,
  `Recovery`, `Convergence`, `Restarts`, `Grants`, `AuditFold`, `Integrity`, `Admission`). A ledger transaction is one
  atomic step, a vault call another. `Runs` interleaves commands, the chunks of any number of uploads, and import staging, and lets a
  crash fall after any vault call and in the middle of an upload or of a staging stream; a crash keeps durable state and
  loses open handles and sessions. Staging one imported dump runs without a pause in the source, so it is one act, beside
  the act of a crash after any of its chunks.
- **Archive and transfer** (`TarFields`, `TarHeader`, `TarFormat`, `TarArchive`, `TarRoundTrip`, `Manifest`,
  `ManifestFormat`, `Export`, `Import`, `ImportSession`, `Restore`, `Restoration`, `ImportLimits`, `ImportRuns`,
  `BundleArchive`). The ustar codec byte by byte
  (the ustar Interchange Format of the pax utility in IEEE Std 1003.1, with GNU base-256 sizes), the strict manifest parser
  over JSON trees, and the law that importing an export restores the instance, as a run like any other.
- **Webhooks and feeds** (`Webhooks`, `Delivery`, `Answers`, `Dispatcher`, `Feed`, `Catalog`). The delivery protocol as a state
  machine over its durable writes, and cursor reads over changing tables.
- **Parsers and limits** (`Msf`, `Pdb`, `Minidump`, `MinidumpLayout`, `MinidumpAccepted`, `MinidumpSample`,
  `MinidumpFacts`, `Inspector`, `JsonScan`, `JsonTree`, `RateLimiter`).

SHA-256, HMAC and the inspector's verdict are functions passed in as parameters (`Ports`); new ids are drawn fresh.

Where the code does less than its documentation, the code is modelled, and the exact condition under which the promise
holds is proved with a concrete input that breaks it:

- Tar names that start with a byte order mark are read back without it (`TarRoundTrip.RoundTrip`, `ByteOrderMarkLost`).
- An import takes at most 16 slots a grant and 16 KiB a replayed detail, while the ledger allows 128 slots and closes a
  case over any number of grants (`Restoration.ImportRestoresExport`, `ImportLimits.SeventeenSlotsStayBehind`,
  `LongDetailStaysBehind`).
- A short middle directory block shifts the copy (`Msf.AssembledIsScattered`, `ShortBlockShifts`), as far as the identity
  (`Pdb.ShiftedFileIdentified`), and a nil stream 1 is read as the next stream that has blocks (`Pdb.NilStreamOneMisread`,
  `NilFileIdentified`).
- The duplicate-key scan reads escapes approximately (`JsonTree.PairIsExact`, `EscapesAreApproximated`) and gives up at its
  depth bound (`ScanReports`, `DeepDuplicateMissed`).

## Model

| member | source | states |
|---|---|---|
| Convergence.RecoveryConverges | src/recovery/reconcile.ts:10-27 | After any run of commands, interleaved uploads and import steps, crashes between any vault call and its transaction included, a restart and one pass raise no integrity alarm, lose no dump row, leave every row available, rejected or deleted with the bytes that phase calls for, and a second pass, at any event time, does nothing |
| Convergence.RecoverySurvivesLoss | src/recovery/reconcile.ts:10-27 | Even when an arbitrary set of vault objects was lost, the pass does not throw, every dump still available holds its sealed bytes, and an alarm is raised for exactly the sealed, quarantined and available dumps that lost their object |
| Convergence.RecoveryReports | src/recovery/reconcile.ts:13-27 | What a pass over any reachable world with any loss reports: one line at most for an id, an alarm exactly for rows whose bytes are missing or found after the tombstone, transfer-failed exactly for receiving rows, available and rejected exactly for rows that moved there, deleted exactly for deleting rows, orphan-removed exactly for aged staging files without a row |
| Convergence.RecoveryOutcomes | src/recovery/reconcile.ts:14-27 | Where that pass leaves each row: bytes waiting for inspection go where the inspection of those bytes says, receiving rows are rejected, lost available dumps deleted |
| Convergence.PassPays | src/recovery/reconcile.ts:13-27 | The pass over any store coupled up to lost objects gives each row the phase and the report its phase and files call for |
| Convergence.ReconcileSettles | src/recovery/reconcile.ts:13-26 | One pass over any store whose rows are coupled up to lost objects: no throw, same dump ids, sealed objects behind available rows; and if nothing was lost, no alarm and a store the next pass leaves alone |
| Convergence.QuiescentIsFixed | src/recovery/reconcile.ts:10-27 | On a settled store with no aged orphan the pass reports nothing and changes nothing, the integrity-alarm branches included |
| Convergence.SweepIsExact | src/recovery/reconcile.ts:12 | The orphan sweep removes exactly the staging files without a row whose age reached the grace period, keeps every other file and every object, and reports nothing exactly when nothing was due |
| Restarts.ReconcileIsRun | src/recovery/reconcile.ts:10-27 | A pass is the run of exactly the listed steps: orphan removals, then the commands of each dump in id order |
| Restarts.RecoveredIsReachable | src/recovery/reconcile.ts:10-27 | What a pass leaves behind is itself a reachable world: recovery performs only orphan removals and engine commands an ordinary run could have performed, so every invariant of runs also holds after it |
| Restarts.InterruptedRecoveryConverges | src/recovery/reconcile.ts:10-27 | A pass cut short by a crash after any of its steps, or inside any of its commands, still leaves a reachable world, and the next pass settles every dump without an alarm and leaves the one after it nothing to do |
| Recovery.InspectQuarantined | src/recovery/reconcile.ts:9 | Accept, and on an outcome mismatch reject: the engine ends in the state the decision function gives, with its outcome, or throws where that throws |
| Recovery.RecoverSealed | src/recovery/reconcile.ts:15-20 | The sealed branch, imperative: presence in exactly one place or an alarm, promotion, quarantine, inspection |
| Recovery.FailInterrupted | src/recovery/reconcile.ts:14 | The receiving branch: staging removed, upload failed |
| Recovery.TombstoneMissing | src/recovery/reconcile.ts:22 | The available branch: a missing object is purged and alarmed, a present one left alone |
| Recovery.RecoverOne | src/recovery/reconcile.ts:13-26 | One dump through the phase switch, state and report as the decision function says |
| Recovery.SweepOrphans | src/recovery/reconcile.ts:12 | The orphan loop against the swept vault and the list of reports |
| Recovery.ReconcileAll | src/recovery/reconcile.ts:10-27 | The whole imperative pass ends in the state, actions and throw status of the pass the convergence results are about |
| Coupling.ExecuteKeepsCoupled | src/engine/dump-ledger-engine.ts:226-373 | Every command that meets what its caller owes (fresh ids, bytes hashed before sealing) keeps the coupling of ledger rows and vault files, phase by phase |
| Safety.HalfDoneKeepsCoupled | src/engine/dump-ledger-engine.ts:242-261 | The stores stay coupled at the crash point after each command's vault call and before its transaction, and inside the two-step removal |
| Safety.NextKeepsInv | src/engine/dump-ledger-engine.ts:226-373 | Every step of the service, crashes included, keeps the coupling, the ownership of open uploads and the grant bound of uploaded bytes |
| Safety.ReachableInv | src/engine/dump-ledger-engine.ts:226-373 | The invariant holds in every reachable world |
| Safety.AvailableBytesAreSealed | src/intake/upload-session.ts:61-123 | In every reachable world an available dump has its vault object and no staging file, with exactly the recorded size and hash and a sound inspection; if it was uploaded, it is within its grant's byte limit and in its grant's case |
| Safety.NextIsLater | src/ledger/sqlite-ledger.ts:387-456 | No step changes an identity, a terminal grant, a tombstone or the audit prefix, and an object keeps its bytes until its dump is being purged |
| History.ExecuteLater | src/ledger/sqlite-ledger.ts:414-456 | The same for one command: rows keep their identity, terminal states are final, recorded size and hash never change after receiving, the log only grows |
| History.ExecuteKeepsObjects | src/engine/dump-ledger-engine.ts:254-261 | A command, finished or cut after its vault call, changes no object's bytes and removes one only while its dump is deleting |
| Engines.Engine.BeginUpload | src/engine/dump-ledger-engine.ts:242-251 | Grant lookup by digest, expiry, staging creation and the ledger transaction in order, staging removed again when the transaction refuses |
| Engines.Engine.SealUpload | src/engine/dump-ledger-engine.ts:252 | Phase check, then the sealing transition |
| Engines.Engine.FailUpload | src/engine/dump-ledger-engine.ts:253 | Phase check, staging removed, then the failing transition |
| Engines.Engine.PromoteObject | src/engine/dump-ledger-engine.ts:254 | Promotion, idempotent when the object is already in the vault, then the transition |
| Engines.Engine.MarkQuarantined | src/engine/dump-ledger-engine.ts:255 | The quarantine transition under its phase check |
| Engines.Engine.AcceptDump | src/engine/dump-ledger-engine.ts:256 | Inspection of the vault bytes decides: sound is accepted, anything else is an outcome mismatch |
| Engines.Engine.RejectDump | src/engine/dump-ledger-engine.ts:257 | Unsound bytes are rejected, sound ones are an outcome mismatch |
| Engines.Engine.AuthorizeDownload | src/engine/dump-ledger-engine.ts:258 | Refused as an integrity failure when the object is missing, otherwise the ledger decides |
| Engines.Engine.BeginPurge | src/engine/dump-ledger-engine.ts:260 | Purging starts from available or rejected only |
| Engines.Engine.FinishPurge | src/engine/dump-ledger-engine.ts:261 | Bytes removed before the tombstone is written |
| Engines.Engine.ImportDump | src/engine/dump-ledger-engine.ts:343-361 | Replay of one dump row: the staged object is required for available rows and dropped again when the ledger refuses; other rows become tombstones |
| Engines.Engine.ExecuteCase | src/engine/dump-ledger-engine.ts:226-241 | The commands about customers, cases and grants, with the engine's bounds on grants |
| Engines.Engine.ExecuteDump | src/engine/dump-ledger-engine.ts:242-261 | The commands about one dump |
| Engines.Engine.Execute | src/engine/dump-ledger-engine.ts:222-373 | The command switch: new state and receipt of every command, refusals changing nothing but what the failing vault call did |
| Engines.Engine.ExecuteImport | src/engine/dump-ledger-engine.ts:316-373 | The import commands of the switch, with the grant bounds and the 16 KiB bound on replayed details |
| Admission.UploadAdmitted | src/engine/dump-ledger-engine.ts:242-251 | In every reachable world an upload begins if and only if some grant row holds the secret, is issued, unexpired and has a slot left in a case that is not closed, and the id is free; the receipt is that row's |
| Admission.HeldSecretDecided | src/ledger/sqlite-ledger.ts:422-439 | Under a held secret each receipt, the begun one and each refusal, is decided by the grant row, its case and the id, and a refused upload changes nothing |
| Admission.GrantAdmitsItsSlots | src/ledger/sqlite-ledger.ts:422-439 | A grant for n uploads in an open case admits exactly as many uploads as it has slots left before its expiry, and refuses the ones after them as exhausted |
| Admission.DownloadDecided | src/engine/dump-ledger-engine.ts:258 | In every reachable world a download is authorised if and only if the dump is available, and then one event is all that changes |
| Admission.LifecycleDecided | src/engine/dump-ledger-engine.ts:253-261 | In every reachable world each lifecycle command is taken if and only if the row is in the phase it asks for; the vault never adds a reason to refuse |
| Admission.InspectionDecided | src/engine/dump-ledger-engine.ts:256-257 | A quarantined dump is accepted if and only if its bytes inspect as sound, and rejected if and only if they do not |
| Admission.LifecycleMoves | src/ledger/sqlite-ledger.ts:441-463 | What each lifecycle command makes of its row, the other rows and a refused command's row staying as they are |
| Admission.CaseCommandsDecided | src/engine/dump-ledger-engine.ts:226-232 | Customers, cases and their edges: each command is taken if and only if the rows allow it |
| Admission.CaseCommandsMove | src/engine/dump-ledger-engine.ts:228-232 | Where each case edge leads, and that closing revokes exactly the issued grants of the case |
| Admission.GrantCommandsDecided | src/engine/dump-ledger-engine.ts:233-241 | A grant is issued if and only if its bounds hold, its case is not closed and its secret is new, and revoked or expired if and only if it is issued |
| Admission.GrantCommandsMove | src/engine/dump-ledger-engine.ts:233-241 | The row an issued grant starts with, and the state it is revoked or expired to |
| Grants.GrantsAccounted | src/ledger/sqlite-ledger.ts:392-439 | In every run, for every natively issued grant: slots used equal the uploads begun under it and never pass the maximum; it is consumed exactly when they are equal; the consuming dump is the first one begun; its dumps are distinct and in its case; and no closed case has an issued grant |
| AuditFold.AuditRebuildsTables | src/ledger/sqlite-ledger.ts:387-456 | In every run without imports, folding the audit log alone gives each case's status, each grant's state and slots, and each dump's phase, blob state, validation and downloadability |
| AuditFold.EdgeExplained | src/ledger/sqlite-ledger.ts:718-726 | Each dump transition and the event it logs tell the same story |
| Integrity.ReachableLedgerSound | src/ledger/sqlite-ledger.ts:565-634 | In every reachable ledger event ids are distinct, every event and row refers to rows that exist, grants stay within the engine's bounds and no two share a secret |
| Ledgers.SqliteLedger.CreateCustomer | src/ledger/sqlite-ledger.ts:378-386 | New row and event, or a refusal that changes nothing |
| Ledgers.SqliteLedger.CreateCase | src/ledger/sqlite-ledger.ts:387 | New row under an existing customer and its event, or no change |
| Ledgers.SqliteLedger.TransitionCase | src/ledger/sqlite-ledger.ts:732-739 | A case moves only along its permitted edge, with one event |
| Ledgers.SqliteLedger.CloseCase | src/ledger/sqlite-ledger.ts:392-404 | Closing, from resolved only, revokes every issued grant of the case, logs once, and touches no other grant |
| Ledgers.SqliteLedger.IssueGrant | src/ledger/sqlite-ledger.ts:405-412 | A grant is issued only in a case that is not closed and only under an unused secret digest |
| Ledgers.SqliteLedger.TransitionGrant | src/ledger/sqlite-ledger.ts:414-421 | Only an issued grant is revoked or expired |
| Ledgers.SqliteLedger.BeginUpload | src/ledger/sqlite-ledger.ts:422-439 | One slot taken, the grant consumed with the last slot, the first dump recorded as its consumer, the dump row inserted, all or nothing |
| Ledgers.SqliteLedger.TransitionDump | src/ledger/sqlite-ledger.ts:718-726 | A dump row changes only from an expected phase and under the extra predicate, with one event |
| Ledgers.SqliteLedger.SetRetention | src/ledger/sqlite-ledger.ts:457-464 | The purge time of an available or rejected dump is set, or nothing changes |
| Ledgers.SqliteLedger.AuthorizeDownload | src/ledger/sqlite-ledger.ts:465-476 | Only a downloadable dump is authorised, leaving an audit event |
| Ledgers.SqliteLedger.BeginImport | src/ledger/sqlite-ledger.ts:565-571 | Only an empty ledger with no import running takes an import marker |
| Ledgers.SqliteLedger.FinishImport | src/ledger/sqlite-ledger.ts:572-580 | Only the open import is finished, once |
| Ledgers.SqliteLedger.ImportCustomer | src/ledger/sqlite-ledger.ts:581-589 | A customer row replayed under a running import |
| Ledgers.SqliteLedger.ImportCase | src/ledger/sqlite-ledger.ts:590-598 | A case row replayed under its customer |
| Ledgers.SqliteLedger.ImportGrant | src/ledger/sqlite-ledger.ts:599-609 | A grant row replayed, revoked instead of issued when forced |
| Ledgers.SqliteLedger.ImportDump | src/ledger/sqlite-ledger.ts:610-627 | A dump row replayed as staged or as a tombstone |
| Ledgers.SqliteLedger.ImportAuditEvent | src/ledger/sqlite-ledger.ts:628-636 | A historical event replayed once, with its references checked |
| Ledgers.FindMarkerIn | src/ledger/sqlite-ledger.ts:574-575 | Finds the marker of the import to finish exactly when the log holds one |
| Vaults.MemoryVault.CreateStaging | src/vault/memory-vault.ts:17-20 | A new open staging file, refused when the id is taken |
| Vaults.MemoryVault.Append | src/vault/memory-vault.ts:21-25 | A chunk appended to an open staging file |
| Vaults.MemoryVault.SyncAndClose | src/vault/memory-vault.ts:26-30 | A staging file is closed; a missing one is refused |
| Vaults.MemoryVault.Promote | src/vault/memory-vault.ts:31-41 | Staging becomes the immutable object; a second promotion of the same id is harmless, promotion over an existing object is refused |
| Vaults.MemoryVault.Remove | src/vault/memory-vault.ts:58 | Neither a staging file nor an object is left |
| Vaults.Concatenate | src/vault/memory-vault.ts:6-12 | Chunk by chunk, the concatenation of all chunks |
| Intake.ReceiveChunks | src/intake/upload-session.ts:71-93 | The write loop accepts exactly the streams within the limit, and what it counted, hashed and stored is their concatenation |
| Intake.Receive | src/intake/upload-session.ts:61-123 | A received upload is sealed with the exact bytes, size and hash of the stream; it is too large exactly when the declared or the streamed length passes the grant's limit; incomplete exactly when interrupted; either way a byte-free rejected row is left and no other dump is touched |
| Intake.Abandon | src/intake/upload-session.ts:103-121 | Dropping a receiving upload always succeeds and leaves a byte-free rejected row |
| Intake.Process | src/intake/intake-facade.ts:53-81 | Post-upload processing resumes from wherever a crash left a sealed upload and its verdict depends on the sealed bytes alone; judged dumps keep their verdict; it throws exactly for missing, receiving, deleting and deleted dumps, changing nothing |
| TarFields.EncodeTarSize | src/transfer/tar.ts:76-92 | The size field written digit by digit is the octal field up to 8 GiB, the base-256 field up to 2^88, and refused from there on |
| TarFields.SizeRoundTrip | src/transfer/tar.ts:76-104 | Every size below 2^88 is read back from its field, on both sides of 8 GiB |
| TarFields.ParseOctalField | src/transfer/tar.ts:107-123 | The digit loop computes the value of the leading octal digits and refuses an empty field or anything but blanks after them |
| TarHeader.EncodeHeaderBlock | src/transfer/tar.ts:144-162 | The block filled field by field over a running checksum is the declarative ustar header |
| TarHeader.VerifyChecksum | src/transfer/tar.ts:219-231 | The byte loop decides whether the stored checksum is the sum with its own field blank |
| TarHeader.ParseHeaderBlock | src/transfer/tar.ts:233-261 | The branches of the strict header reader, in order, errors included |
| TarHeader.HeaderReadsBack | src/transfer/tar.ts:144-261 | A header written for any safe name, size below 2^88, time and mode passes checksum and every field check, and gives back the size and the decoded name, or is refused exactly when the decoded name is unsafe or too long for the reader |
| TarFormat.UstarFields | src/transfer/tar.ts:144-161 | Where a written header has its name, mode, ids, size, time, checksum, type and magic, in bytes, and zeros everywhere else |
| TarFormat.SafeNameMeans | src/transfer/tar.ts:133-142 | A name is safe if and only if it is not empty, has no NUL or backslash, starts with no slash or drive letter, and no segment of it is empty or ".." |
| TarArchive.TarWriter.AddEntry | src/transfer/tar.ts:171-183 | An entry opens exactly when none is open, the archive is not sealed and name, time and size fit; otherwise nothing is written |
| TarArchive.TarWriter.Append | src/transfer/tar.ts:184-189 | A chunk is taken exactly while it fits the declared size |
| TarArchive.TarWriter.FinishEntry | src/transfer/tar.ts:190-196 | An entry closes exactly when all declared bytes arrived |
| TarArchive.TarWriter.Finish | src/transfer/tar.ts:199-205 | The sealed sink is the declarative archive of all entries added |
| TarArchive.ReadTar | src/transfer/tar.ts:276-310 | The reading loop lists what the recursive reader lists, with its error |
| TarArchive.EntryChunks | src/transfer/tar.ts:263-274 | Chunks of at most 256 KiB whose concatenation is the entry's data |
| TarArchive.ReadingIsSound | src/transfer/tar.ts:276-310 | On arbitrary bytes: the reader ends, and every entry it yields has a safe, distinct name and a data region inside the source, after and disjoint from the ones before, within the entry and byte bounds |
| TarRoundTrip.RoundTrip | src/transfer/tar.ts:164-310 | For every list of entries the writer takes, the reader gives back the same names, sizes and bytes in order if and only if names are distinct, within the reader's bounds and do not start with a byte order mark |
| TarRoundTrip.ByteOrderMarkLost | src/transfer/tar.ts:233-261 | A name that starts with a byte order mark is written and comes back without it |
| TarRoundTrip.CutArchives | src/transfer/tar.ts:208-310 | A written archive cut anywhere is accepted if and only if the cut leaves exactly one or both zero blocks |
| Manifests.CheckUnrepeated | src/transfer/manifest.ts:320-391 | The two `seen` loops accept exactly the manifests that declare or skip no dump twice |
| Manifests.ManifestReads | src/transfer/manifest.ts:320-437 | Every manifest within the format's bounds is accepted by the strict parser from its own tree and comes back unchanged, decimal sizes included |
| Manifests.ParserIsStrict | src/transfer/manifest.ts:320-437 | Whatever the parser accepts is the tree of the manifest it returns, and within the bounds: one tree per manifest, no unknown or missing keys |
| ManifestFormat.ManifestKeys | src/transfer/manifest.ts:194-391 | What stands under which key of a manifest |
| ManifestFormat.ManifestBounds | src/transfer/manifest.ts:150-391 | The bounds a manifest is accepted within, in numbers, with every dump named once |
| Exports.SelectManifest | src/transfer/export-session.ts:327-365 | The imperative selection builds the declared and skipped lists in id order, the counts included |
| Restoration.ManifestCounts | src/transfer/export-session.ts:327-365 | The manifest of a selection lists exactly the available, rejected and deleted dumps in id order with their rows' facts, and counts the positions of the log whose events name no dump or one of those |
| Exports.SelectionParses | src/transfer/export-session.ts:327-365 | Every manifest selected from a reachable ledger within the size bounds is accepted by the strict parser and comes back unchanged |
| Exports.ExportSeals | src/transfer/export-session.ts:247-271 | Every dump a reachable instance promises is in the vault with the promised size and hash, so writing its entries never races |
| Restoration.ExportIsConsistent | src/transfer/import-session.ts:417-456 | The bundle of a reachable instance passes every consistency gate of the import |
| BundleArchive.SealedBundleOpens | src/transfer/import-session.ts:151-180 | Opening the archive a bundle was written to gives back the same manifest, ledger rows and dump bytes, when the ids of its dumps have the shape of the vault entry pattern and no two ids share a text |
| BundleArchive.SomeCodecFits | src/transfer/import-session.ts:44 | That hypothesis is met: any bundle of ids below 8^26, written as 26 octal digits, whose files a tar header can size has a codec and limits for which the law holds |
| BundleArchive.NamesText | src/transfer/manifest.ts:121-124 | The entry names of an archive, letter by letter |
| ImportSessions.ImportSession.Begin | src/transfer/import-session.ts:748-753 | The session begins once, when the engine begins the import |
| ImportSessions.ImportSession.ImportCustomerRow | src/transfer/import-session.ts:755-761 | Each customer row is stepped once, through the engine |
| ImportSessions.ImportSession.ImportCaseRow | src/transfer/import-session.ts:763-769 | Each case row is stepped once |
| ImportSessions.ImportSession.ImportGrantRow | src/transfer/import-session.ts:771-777 | Each grant row is stepped once, revoked under a foreign key |
| ImportSessions.Stage | src/transfer/import-session.ts:779-818 | Streaming, hashing and staging of one dump ends in the declared disposition, a size or hash mismatch as a tombstone |
| ImportSessions.ImportSession.StageRow | src/transfer/import-session.ts:779-818 | A declared dump is staged once |
| ImportSessions.ImportSession.Finish | src/transfer/import-session.ts:834-864 | Finishing needs every row stepped, replays the kept history in order and closes the import |
| ImportSessions.ImportSession.Abandon | src/transfer/import-session.ts:865-869 | Abandoning never reopens a finished session |
| ImportSessions.ImportBundle | src/transfer/import-session.ts:890-935 | The driving loops end in the state, tally and status of the import the restoration results are about |
| Restore.DumpLands | src/transfer/import-session.ts:779-818 | Each exported dump lands as its exact source row with its bytes, or as a byte-free tombstone |
| Restore.AnyDumpLands | src/transfer/import-session.ts:779-818 | Whatever bytes a bundle carries for an available row: another size or hash than declared lands it rejected and without bytes, otherwise the bytes are stored and their inspection decides |
| Restore.GrantsLand | src/transfer/import-session.ts:771-777 | All grants land, issued ones revoked under a foreign key and nothing else changed |
| Restore.EventsLand | src/transfer/import-session.ts:834-864 | The kept history is replayed whole and in order |
| Restoration.ImportRestoresExport | src/transfer/import-session.ts:890-935 | Importing the export of any reachable instance into an empty one finishes if and only if every grant fits 16 slots and every event that travels 16 KiB; then customers, cases and grants are the source's (issued grants revoked under another key), available dumps are available with the same row and bytes, rejected and deleted ones byte-free tombstones, dumps in flight absent, and the target's foreign events are, in order and unchanged, exactly the source events that name no dump or one of those |
| Restoration.HistoryStands | src/transfer/import-session.ts:834-864 | The positions of the source log that travel and of the target log that are foreign correspond one to one and in order, with equal events |
| Restoration.GatesAreExact | src/transfer/import-session.ts:417-456 | Whatever the bundle, an import passes its gates if and only if every grant fits, every declared dump is backed by its row and bytes, every row is declared or skipped, every file promised and every count right; otherwise nothing is written |
| Restoration.ArchiveRestores | src/transfer/export-session.ts:463-515 | The same law through the bytes of the sealed archive: what an import opens from it restores the source |
| Restoration.SomeArchiveHolds | src/transfer/export-session.ts:463-515 | Every sealed bundle of an instance with ids below 8^26 and objects below the tar size bound is held by some archive, so the law through the bytes has instances |
| ImportLimits.SeventeenSlotsStayBehind | src/transfer/import-session.ts:251-254 | One grant with 17 slots, which the ledger issues, keeps a whole reachable instance from being imported |
| ImportLimits.LongDetailStaysBehind | src/engine/dump-ledger-engine.ts:362-368 | Closing a case over 16385 open grants of one slot each, whose ids the event lists, keeps a whole reachable instance within the slot limit from being imported, if each listed id takes at least a byte |
| ImportRuns.ImportIsRun | src/transfer/import-session.ts:890-935 | Importing any bundle, finished or not, is a run of the filled instance: the marker, then import steps only; so whatever it leaves is reachable |
| ImportRuns.ImportedIsReachable | src/transfer/import-session.ts:890-935 | The instance an export was imported into is reachable like any other, and its own export passes every gate of the next import |
| ImportRuns.OpenImportsStayOpen | src/ledger/sqlite-ledger.ts:749-758 | After a finished transfer the target counts an import as running exactly when the history it took over holds a marker it does not finish |
| Webhooks.NextKeepsInv | src/webhooks/dispatcher.ts:155-286 | Every step of the delivery protocol, a crash or storage fault at any durable write included, keeps the cursor and delivery-row invariant |
| DeliveryProtocol.SettledUpToCursor | src/webhooks/dispatcher.ts:181-208 | In every run: every wanted event between a live subscription's start and its cursor is delivered or exhausted, and at most one row lies above the cursor, for the next wanted event |
| DeliveryProtocol.ReceivedInOrder | src/webhooks/dispatcher.ts:181-257 | In every run POSTs come in non-decreasing rowid, a settled event is never posted again, and one event is posted at most maxAttempts times plus its interruptions between a POST and its record |
| DeliveryProtocol.BackoffKept | src/webhooks/dispatcher.ts:263-286 | After the k-th recorded failure the next POST comes at least base times 5^(k-1) later |
| DeliveryProtocol.OnlyLaterEvents | src/webhooks/sqlite-storage.ts:105-130 | However a run goes on, a subscription is POSTed only events appended after it was made |
| DeliveryAnswers.RowIsItsAnswers | src/webhooks/dispatcher.ts:248-286 | In every run the row of an event is decided by the replies recorded for it: delivered if and only if the last is a status from 200 to 299, exhausted if and only if all of maxAttempts replies failed, pending while fewer did; every POST had its reply recorded, was interrupted or is in flight |
| DeliveryAnswers.PassedEventsWereAnswered | src/webhooks/dispatcher.ts:176-208 | Every wanted event between a live subscription's start and its cursor was answered with a status from 200 to 299 or failed maxAttempts times |
| DeliveryAnswers.NextKeepsAnswers | src/webhooks/dispatcher.ts:210-286 | Every step of the protocol keeps each row the account of its recorded replies |
| Dispatchers.WebhookStorage.CreateDelivery | src/webhooks/sqlite-storage.ts:156-165 | A row is inserted exactly when the subscription lives and has none for the event |
| Dispatchers.WebhookStorage.Advance | src/webhooks/sqlite-storage.ts:191-194 | The cursor moves, forward only |
| Dispatchers.Dispatcher.ScheduleFailure | src/webhooks/dispatcher.ts:263-286 | A failure is exhausted with its cursor advance, or rescheduled with the backoff |
| Dispatchers.Dispatcher.Attempt | src/webhooks/dispatcher.ts:210-257 | An answered attempt settles and advances, any other is scheduled |
| Dispatchers.Dispatcher.RunPage | src/webhooks/dispatcher.ts:181-208 | The page loop leaves the subscription as the recursive page walk does |
| Dispatchers.Dispatcher.Tick | src/webhooks/dispatcher.ts:155-176 | A tick visits the listed subscriptions in order with the cursor listed at its start, the clock read anew for every event and every failure |
| Dispatchers.PageIsRun | src/webhooks/dispatcher.ts:181-208 | The imperative page is a run of the step protocol without interruption, so its results carry over |
| Dispatchers.TickIsRun | src/webhooks/dispatcher.ts:155-176 | An uninterrupted tick is a run of the step protocol from idle to idle that leaves the storage the imperative tick leaves |
| Dispatchers.TickServesEach | src/webhooks/dispatcher.ts:155-176 | Each subscription of a tick gets its own page, whatever the others do |
| Dispatchers.PageHonours | src/webhooks/dispatcher.ts:176-208 | A page posts its events in turn up to the first that is not due or fails for now; every row it changes becomes what the reply calls for, and the cursor passes exactly the settled ones in front |
| Dispatchers.TickHonours | src/webhooks/dispatcher.ts:155-208 | So does a whole tick, for every listed subscription |
| Dispatchers.PageMakesProgress | src/webhooks/dispatcher.ts:181-208 | A page adds no work, and when its head is due takes some away |
| Dispatchers.SubscriptionSettles | src/webhooks/dispatcher.ts:155-208 | Once due times pass, as many ticks as there are attempts left in the finite backlog of one subscription settle it |
| Dispatchers.TicksSettle | src/webhooks/dispatcher.ts:155-208 | The same over the whole storage: as many due ticks as the longest backlog has attempts left settle every listed subscription, whatever the receivers answer |
| Feed.ReadAuditEvents | src/ledger/sqlite-ledger.ts:558-562 | The row pass returns the first page of wanted rowids and its last rowid |
| Feed.PageIsComplete | src/ledger/sqlite-ledger.ts:267-290 | A page holds every wanted event up to its last rowid, and a short page everything |
| Feed.PageSelects | src/ledger/sqlite-ledger.ts:558-563 | A page in the filter's own terms: at most 500 rowids, ascending, up to its last exactly the events whose action and case are asked for |
| Feed.PollingMissesNothing | src/ledger/sqlite-ledger.ts:558-562 | Polling a growing log with the returned rowid misses and repeats nothing |
| Feed.TraversalIsComplete | src/ledger/sqlite-ledger.ts:238-265 | Following the cursor over views that change between pages returns rows in key order, never one twice, each seen in some view, and every row that matched throughout |
| Catalogs.CatalogTraversal | src/ledger/sqlite-ledger.ts:536-545 | The same over succeeding ledgers: while dumps are inserted and change phase, no dump id is returned twice and every dump that matched throughout is returned |
| Feed.SearchPages | src/ledger/sqlite-ledger.ts:536-544 | A catalog page holds 200 rows at most and has a cursor if and only if more were there to read |
| Msf.ReadConsecutive | src/symbols/identity.ts:205-229 | The block loop returns one contiguous slice exactly when it fits in the file |
| Msf.ScatteredAssembles | src/symbols/identity.ts:232-249 | Any data scattered over blocks of the file is reassembled |
| Msf.AssembledIsScattered | src/symbols/identity.ts:504-511 | What the directory loop returns is the scattered data if and only if no block before the last was cut by the end of the file |
| Msf.WholeBlocks | src/symbols/identity.ts:504-511 | A file of whole blocks has no short block |
| Msf.ShortBlockShifts | src/symbols/identity.ts:504-511 | A short middle block shifts the rest of the copy instead of failing |
| Msf.GatherIsScattered | src/symbols/identity.ts:335-374 | The stream reader returns given data if and only if the file holds them scattered over the listed blocks |
| Msf.DebugIdInjective | src/symbols/identity.ts:313-324 | Distinct GUID and age give distinct debug ids |
| Msf.DebugIdReads | src/symbols/identity.ts:313-324 | The id reads back as Data1 to Data3 in little-endian order, Data4 byte by byte and the age, in upper-case digits |
| Pdb.AssembleDirectory | src/symbols/identity.ts:504-511 | The directory loop with its moving copy offset computes the recursive reassembly |
| Pdb.ReadStreamPrefix | src/symbols/identity.ts:335-374 | The walk over sizes and block lists computes the stream prefix the specification defines |
| Pdb.ParsePdbIdentity | src/symbols/identity.ts:460-514 | All checks of the parser, in order |
| Pdb.StreamOneIdentifies | src/symbols/identity.ts:460-514 | For every file that lays out a directory over scattered blocks, any stream lists and nil streams included, the parser returns exactly the GUID and age of stream 1 when its version is known |
| Pdb.SuperblockIs | src/symbols/identity.ts:335-404 | The superblock is accepted if and only if its block size is a power of two from 512 to 2^30 within the file and its directory at most 256 MiB |
| Pdb.NilStreamOneMisread | src/symbols/identity.ts:335-404 | When stream 1 is nil the parser gives an identity if and only if a later stream has a block, a header fits behind the start of the first one and carries a known version; the identity is then read there, and otherwise the file is refused |
| Pdb.NilFileIdentified | src/symbols/identity.ts:335-404 | A well-formed file of four blocks without a stream 1 for which the parser gives an identity |
| Pdb.ShiftedFileIdentified | src/symbols/identity.ts:335-404 | A whole file in whose listed blocks no directory lies, the first being cut off, is given an identity by the parser |
| MinidumpFacts.CapturedIsExact | src/inspection/minidump-inspector.ts:141-304 | For every accepted file the captured total is the sum over both memory lists, below 2^64, and every payload of either list lies inside the file, those of the 64-bit list one behind the other |
| MinidumpFacts.Payload64Inside | src/inspection/minidump-inspector.ts:274-304 | Each payload of the 64-bit list ends within the region its list declares |
| MinidumpFacts.FactsFit | src/inspection/minidump-inspector.ts:108-115 | For every accepted file the serialised facts, names and debug files escaped six characters to the unit, are at most 4 MiB, however many records share bytes |
| MinidumpFacts.ModulesCharged | src/inspection/minidump-inspector.ts:357-436 | The text of the modules is within the fixed reserve per module plus what the budget was charged |
| MinidumpFacts.FixedFieldsBounded | src/inspection/vault-inspection-port.ts:51-78 | All fields but the modules serialise within 1 KiB |
| Inspectors.MetadataBudget.Spend | src/inspection/minidump-inspector.ts:108-119 | Spending succeeds exactly while enough remains |
| Inspectors.WalkMemoryList | src/inspection/minidump-inspector.ts:243-272 | The range loop computes the 32-bit list's facts, reading once per range |
| Inspectors.WalkMemory64List | src/inspection/minidump-inspector.ts:274-304 | The range loop computes the 64-bit list's facts, reading once per range |
| Inspectors.WalkModules | src/inspection/minidump-inspector.ts:357-402 | The module loop under the shared budget, four reads a module at most |
| Inspectors.InspectSource | src/inspection/minidump-inspector.ts:141-241 | The inspection ends on any source with the specified verdict, every read inside the source and at most 64 KiB, and a constant number of reads |
| Inspectors.InspectDump | src/inspection/minidump-inspector.ts:122-139 | The inspector accepts a source if and only if its bytes are a well-formed minidump, with the facts laid out in them |
| MinidumpAcceptance.AcceptedExactly | src/inspection/minidump-inspector.ts:141-241 | For every byte sequence: inspection succeeds if and only if nothing is wrong with the header, the directory or a stream, said of the bytes; flags, coverage, captured bytes, ranges, architecture, exception and modules are then the ones laid out |
| MinidumpAcceptance.DirectoryRead | src/inspection/minidump-inspector.ts:141-191 | The directory is read if and only if header and directory are good, with a foreign signature and a foreign version told apart |
| MinidumpAcceptance.ModulesRead | src/inspection/minidump-inspector.ts:357-436 | The modules of a list are read if and only if all their names are in place and their cost is within the budget, each as its record says |
| MinidumpAcceptance.RsdsRead | src/symbols/identity.ts:419-440 | A CodeView record has an identity if and only if its path up to the NUL decodes without control characters to a usable last segment |
| MinidumpSample.SampleAccepted | src/inspection/minidump-inspector.ts:141-241 | One file of 308 bytes and all its facts |
| Minidump.CheckedAdd | src/inspection/minidump-inspector.ts:482-487 | Addition succeeds exactly when the sum fits 64 bits |
| JsonScan.Scanner.ReadKey | packages/http-contracts/src/decode.ts:313-338 | The string loop with its escape branches |
| JsonScan.Scanner.ScanValue | packages/http-contracts/src/decode.ts:340-350 | One value passed over, position and path stack restored |
| JsonScan.Scanner.ScanObject | packages/http-contracts/src/decode.ts:352-390 | The member loop over the shared position, stack and key set |
| JsonScan.Scanner.ScanArray | packages/http-contracts/src/decode.ts:392-416 | The item loop |
| JsonScan.ScanText | packages/http-contracts/src/decode.ts:300-436 | The scan of a text, root check included |
| JsonTree.ScanIsJudgement | packages/http-contracts/src/decode.ts:300-436 | On every valid JSON text with an object or array at its root, any whitespace, the scan reports exactly what a walk over the syntax tree does: the first repeated key and its path |
| JsonTree.FirstMark | packages/http-contracts/src/decode.ts:340-415 | The verdict of the walk is that of the first mark in text order over the whole tree, a mark being a container nested under 100 keys or a key its object had before |
| JsonTree.MarksOfValue | packages/http-contracts/src/decode.ts:340-415 | Such marks occur exactly when some object repeats a key as the scan reads keys, and exactly when some container is nested too deep |
| JsonTree.ScanReports | packages/http-contracts/src/decode.ts:300-436 | At any nesting a duplicate is reported if and only if some object repeats a key as the scan reads keys and no container nested under 100 keys comes before every repeated key in text order; within the depth bound it never gives up |
| JsonTree.ScanIsExact | packages/http-contracts/src/decode.ts:264-276 | When in every object two keys look alike exactly when they mean alike, a duplicate is reported if and only if some object repeats a key (section 4 of RFC 8259) and no container nested under 100 keys comes before every repeated key in text order |
| JsonTree.PairIsExact | packages/http-contracts/src/decode.ts:313-338 | For every two keys, the object that holds both is judged rightly if and only if they look alike exactly when they mean alike |
| JsonTree.PlainScanIsExact | packages/http-contracts/src/decode.ts:264-276 | Keys free of escapes meet that condition, so within the depth bound the report is exact |
| JsonTree.EscapesAreApproximated | packages/http-contracts/src/decode.ts:313-338 | Two texts on which escapes make the scan miss a duplicate and report one that is none |
| JsonTree.DeepDuplicateMissed | packages/http-contracts/src/decode.ts:352-356 | A duplicate nested deeper than the bound is not reported |
| RateLimiter.FixedWindowRateLimiter.PruneEntries | src/auth/rate-limiter.ts:47-51 | Exactly the windows that ended are dropped |
| RateLimiter.FixedWindowRateLimiter.EvictOldest | src/auth/rate-limiter.ts:53-63 | The first key among the least recently seen is dropped |
| RateLimiter.FixedWindowRateLimiter.TakeOne | src/auth/rate-limiter.ts:34-45 | One attempt: prune, count or open a window, evict when full |
| RateLimiter.TableStaysBounded | src/auth/rate-limiter.ts:34-45 | The table never holds more than maxKeys entries, and always the key just seen |
| RateLimiter.AtMostTwiceTheLimit | src/auth/rate-limiter.ts:34-63 | Under a clock that never goes back, any interval of one window length admits a key that is not evicted at most twice the limit |
| RateLimiter.AdmissionDecided | src/auth/rate-limiter.ts:34-45 | An attempt is admitted if and only if the key has no open window or its window counts fewer attempts than the limit |
| RateLimiter.UnderTheLimitIsAdmitted | src/auth/rate-limiter.ts:34-45 | In every run a key tried fewer times than the limit in the last window length is admitted, whatever other keys did |
| RateLimiter.WindowsStay | src/auth/rate-limiter.ts:47-64 | Another key's open window is only lost when the table is full of open windows and it is one of the least recently seen |

## Left out

- Engines.Engine.Execute: text, date and digest validators of the engine; its error `grant_consumed` is `GrantExhausted` here.
- Engines.Engine.ExecuteCase: the same validators for names, titles and expiry dates.
- Engines.Engine.ExecuteImport: the same validators for imported texts, dates and inspection fields.
- Ledgers.SqliteLedger.CreateCustomer: customer numbers, assigned one above the highest.
- Ledgers.SqliteLedger.ImportCustomer: the customer number of the replayed row.
- Intake.Receive: vault writes that fail on their own and the storage-unavailable outcome; in runs they appear as a torn chunk
  and an aborted upload.
- TarArchive.TarWriter.AddEntry: a `RangeError` counts as an invalid input.
- Manifests.ManifestReads: symbol entries, and the step between JSON text and tree.
- Manifests.ParserIsStrict: symbol entries, and the step between JSON text and tree.
- Exports.SelectManifest: the symbols of the selection; analysis reports are only counted. Both the export (`export-session.ts:437`)
  and the import (`import-session.ts:342`) refuse a ledger with rows in `analysis_details`, so the transfer laws are about
  instances without them.
- Exports.SelectionParses: the symbols of the selected manifest.
- Restoration.ImportRestoresExport: assumes no id the target will draw occurs in the source, and that no command runs between
  the export's snapshot and its ledger copy, which are one step here; instances with rows in `analysis_details`, which both
  ends refuse, are not modelled.
- BundleArchive.SealedBundleOpens: takes bundles that fit the archive, the reader's bounds and the manifest and ledger size
  limits, with a parser that reads back what was serialised, and dump ids whose texts match the vault entry pattern; path
  checks, temporary files, the schema version of the bundle's
  ledger, its column checks and the symbol gates are not modelled.
- Dispatchers.Dispatcher.Tick: the closed flag and the catch around each subscription, which are the crash and fault acts of the
  step protocol.
- Inspectors.InspectSource: sources that fail with an I/O error of their own.
- JsonScan.ScanText: a report holds the list of keys and not the path text joined from it; the JavaScript call-stack limit,
  should it be reached before the depth bound, is not modelled either.
- RateLimiter.AtMostTwiceTheLimit: excludes runs in which the key itself is evicted, since eviction forgets its window.
- FilesystemVault: descriptors and directory syncs are represented by their durable effect, which is the one modelled by
  `MemoryVault` plus handles that are lost in a restart and a removal in two steps. It tells the age of a staging file by its
  last modification; here it is the time of creation, as `MemoryVault` keeps it.
- Identifiers are naturals and an event id is the pair of the instance that drew it and a serial; that new ids are fresh, and
  that a replayed event never carries an id of the replaying instance, are premises.
- Times are integers; a command, a recovery pass and an import each read the clock once.
- Symbol artifacts: store rows, ingestion, their part of exports and imports, PE files and store paths.
- UTF-8 validity, JSON text to tree and the SQLite file format are parameters; names are UTF-8 byte sequences, so lone surrogates
  do not occur.
- Webhook URLs, signatures, bodies, timeouts, delivery ids and the range of JavaScript dates.
- Catalog filters are an arbitrary predicate on rows; the row mappers of the catalog and the feed; the rest of the wire decoders.
- HTTP routes, sessions and tokens, the command line, the upload admission, the retention loop, the retry queue and the transfer
  manager: they would add only easy members.
