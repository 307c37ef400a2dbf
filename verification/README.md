# FilaScan, modelled and proved in Dafny

FilaScan reads the RFID tags of filament spools and keeps their places in a FilaMan server. This project models the
parts of it where a mistake would lose something, and proves what they promise. `dafny verify dfyconfig.toml` checks
all of it.

**The offline store** (`Identity`, `CanonicalList`, `Inventory`, `Documents`, `OfflineStore`, `FilaManServer`,
`FilaManAnswers`, `FilaManService`, `ServiceLaws`, `SyncProtocol`, `SyncBlindBoot`, `SyncConvergence`, `SyncChoices`,
`SyncRefinement`, `SyncService`). `OfflineState` and `Service` are classes with the fields and the prepare, persist,
commit discipline of the program. `SyncProtocol` is the same service as a state machine whose steps are what one
operation does between two awaits; what becomes of a request (answered, refused, lost, carried out with the answer
lost or with one the device refuses), card writes, changes by other clients and crashes are chosen by the step. The
main results are that an accepted offline request stays on the card until it is carried out or replaced by another for
the spool, that the protocol's undisturbed steps are the methods of the service, that crashes do not change the
outcome of synchronising, that the lock is a lock and is always left, and that the indexed cache answers as the plain
scan. Three promises one might expect are false, and the exact conditions under which they hold are proved instead:

- The cache and the scan disagree on entries with outer white space, or with a prefix in other letter case
  (`Identity.AgreementIsExact` for one entry, `Inventory.ListAgreementIsExact` for a list).
- A boot that cannot read the queue starts with an empty one, and the next queue written replaces the file
  (`SyncBlindBoot.BlindBootForgetsExactly`); without such a write nothing is lost
  (`SyncBlindBoot.AcceptedRequestsSurviveBlindBoots`).
- Storing a spool online does not look at the queue, so an older queued request undoes the newer choice at the next
  synchronisation (`SyncChoices.LastChoiceWinsExactly`).

**The tag decoder** (`Bytes`, `Ndef`, `NdefLaws`, `Cbor`, `OpenPrintTag`, `OpenPrintTagMeaning`, `OpenPrintTagForms`,
`OpenPrintTagLaws`). The cursor loops over blocks and records, the region arithmetic and the map visitor are methods
proved against readers of the formats (NDEF 1.0, section 3.2; RFC 8949, section 3; RFC 3629, section 4). Writers that
may use every encoding the formats allow are then proved to be undone, and the meaning of a tag to be independent of
the encoding chosen and to be what the last entry with each key says.

**The PN5180 scan loop** (`ScanTrace`, `Pn5180Scan`, `ScanPlacements`, `ScanRuns`, `ScanVerdicts`). The loop runs over
a script of driver answers and clock readings and records a log. `ScanTrace` states, as an automaton over logs, what
the reader may ask and announce, and what it must do next; `Pn5180Scan.Run` is proved to keep to it in every run, with
one exception that is characterised exactly (a card that changes its kind while it is being read, line 221 of the
loop); `ScanPlacements` derives what such logs look like, `ScanRuns` puts the two together, and `ScanVerdicts` shows
that a card that can be read is read.

**The colour catalog** (`CatalogStore`), with writes that may be cut short at any byte. One interruption is always
harmless; two in unlucky places are not, and the exact condition is proved. An entry is found by its own key exactly
if its colour code has no dash.

**The browser installer** (`WebInstaller`, `InstallerLaws`): accepted images, flashed in place sector by sector, keep
the settings partitions of any device.

**Slugs and cache keys** (`MaterialSlugs`, `SlugLaws`).

`KnownAnswers` holds inputs whose answers are known from elsewhere, and the numbers the program is built on.

`Text` holds the string operations of Rust that the rest relies on.

Assumptions and parameters:

- Network, SD card, driver and clock are parameters of the members that use them, or labels of steps. A write of the
  queue or the inventory to the SD card happens entirely or not at all; writes of the catalog may be torn.
- serde_json is replaced by documents of tokens with a writer and a reader of their own. Blank tokens stand for white
  space, every token has a size in bytes, and a cut inside a token leaves a shorter number or a broken text. Round
  trips are proved, not assumed.
- The server is a map from canonical ids to spools with a place, and a history of which spool id belonged to which
  id. Other clients may change places and archive spools, but never reuse a spool id. An answer is the server's own or
  one that the device refuses; one that is wrong and passes the device's checks is no outcome. Importing a spool the
  server has answers "existing", as the plugin promises.
- In the interleaved model the page scan is one step, because its pages are read under the lock.
- The MD5 function of the installer is a parameter.
- `usize` is 32 bits wide, as on the device: offsets and sizes in a tag are taken modulo 2^32.

## Model

| member | source | states |
|---|---|---|
| `Identity.EachHasItsDefect` | core/src/filaman.rs:1346-1361 | The scan recognises exactly the entries that name the spool without outer white space, the cache exactly those that name it without a prefix in foreign letter case. |
| `Identity.ValidatedExactly` | core/src/filaman.rs:1311-1337 | Which spools are let through: all required fields, and an id of the length and letters its kind has. |
| `Identity.CanonicalSpelling` | core/src/filaman.rs:1339-1344 | The canonical name is the prefix of the source and the id, in capitals for Bambu and in small letters otherwise. |
| `Identity.AgreementIsExact` | core/src/filaman.rs:1339-1361 | The inventory cache and the plain scan judge a server entry alike if and only if the entry does not name the spool, or has both defects (outer white space, a prefix in foreign letter case) or neither. |
| `Identity.TrimmedAgreement` | core/src/filaman.rs:1346-1361 | For an entry without outer white space the cache recognises exactly what the scan recognises, minus entries whose prefix is spelt in other letters. |
| `Identity.UntrimmedNeverScans` | core/src/filaman.rs:858-888 | An entry with outer white space is never recognised by the scan, which compares ignoring case but does not trim. |
| `Identity.EitherDefectMisleads` | core/src/filaman.rs:1346-1361 | Neither condition can be dropped: for every storable spool its own canonical name behind a space is recognised by the cache alone, and in capitals by the scan alone. |
| `Identity.CanonicalIsTidy` | core/src/filaman.rs:1339-1344 | The canonical name the device itself sends has neither defect, and the scan recognises it. |
| `CanonicalList.SortIsStable` | core/src/filaman/offline.rs:182-186 | Sorting never reorders entries with equal keys. |
| `CanonicalList.DedupKeepsFirsts` | core/src/filaman/offline.rs:182-186 | On a sorted list, removing neighbours with equal keys keeps the first entry of every key and nothing else. |
| `CanonicalList.CanonicalMeaning` | core/src/filaman/offline.rs:182-186 | For every list: the result is strictly sorted, and holds for each key the first entry the input had. |
| `CanonicalList.StrictlySortedIsUnique` | core/src/filaman/offline.rs:182-186 | A strictly sorted list is determined by which entry each key has. |
| `CanonicalList.CanonicalIsIdempotent` | core/src/filaman/offline.rs:182-186 | Sorting and deduplicating a second time changes nothing. |
| `CanonicalList.PermutationsAgree` | core/src/filaman/offline.rs:182-186 | With distinct keys the result depends on the entries, not on the order they came in. |
| `Inventory.FindSpool` | core/src/filaman.rs:858-888 | The page loop of the scan, errors and the page limit included, computes the recursive scan specification. |
| `Inventory.LoadInventorySpools` | core/src/filaman.rs:934-961 | The page loop of the inventory load computes the recursive load specification. |
| `Inventory.ScanEndsAt` | core/src/filaman.rs:858-888 | For every server, not only a static list: the scan ends at the first page that cannot be read, that holds a match, or that is the last by its own count, and answers accordingly; an unreadable page is never taken for the end. |
| `Inventory.LongScanIsRefused` | core/src/filaman.rs:858-888 | A hundred pages without a match and with more to come are refused. |
| `Inventory.LoadEndsAt` | core/src/filaman.rs:934-961 | For every server: the load fails at the first page that cannot be read, or ends at the first that is the last by its own count, with the entries of all pages up to it. |
| `Inventory.LongLoadIsRefused` | core/src/filaman.rs:934-961 | A hundred pages with more to come are refused. |
| `Inventory.AppendEntries` | core/src/filaman.rs:934-961 | One page appends exactly its entries that have an id and a recognisable external id, in order. |
| `Inventory.PagedScanIsLinear` | core/src/filaman.rs:858-888 | Reading a static list in pages of 50 finds what a linear search of the whole list finds, first match in server order, or refuses a list over 5000 entries without a match in them. |
| `Inventory.PagedLoadIsComplete` | core/src/filaman.rs:934-961 | Reading in pages loads every entry once in server order, or refuses a list that is too long. |
| `Inventory.IndexIsLinearLookup` | core/src/filaman/offline.rs:201-209 | The hash index answers exactly what a linear search for the last entry with the key answers. |
| `Inventory.CanonicalIndex` | core/src/filaman/offline.rs:182-209 | Over a canonical snapshot the index answers with the first entry the server listed for the key. |
| `Inventory.OrdersAreTotal` | core/src/filaman/offline.rs:183-186 | The two sort orders are total orders. |
| `Inventory.BothAnswers` | core/src/filaman/offline.rs:136-209 | Over any static list of at most 5000 entries the paged scan answers with the first entry it recognises, and the loaded, sorted, deduplicated and indexed inventory with the first entry the cache recognises. |
| `Inventory.ListAgreementIsExact` | core/src/filaman/offline.rs:136-209 | For every such list the two answers agree if and only if the first entry naming the spool without outer white space and the first naming it without a foreign prefix and with a usable id show the same id and place, or there is neither. |
| `Inventory.CacheAgreesWithScan` | core/src/filaman/offline.rs:136-209 | For every list of at most 5000 well-formed entries the inventory gives the same spool id and location as the paged scan, including when several entries share an identity. |
| `Documents.QueueRoundTrip` | core/src/filaman/offline.rs:125-134 | Reading a written queue gives the queue back, except for the tag UIDs, which are not written. |
| `Documents.InventoryRoundTrip` | core/src/filaman/offline.rs:112-123 | Reading a written snapshot gives the snapshot back. |
| `Documents.SameBytesSameQueue` | core/src/filaman/offline.rs:245-249 | Two queues have the same bytes if and only if they agree on everything but the tag UIDs. |
| `Documents.DecodedIsStored` | core/src/spool.rs:38-39 | A queue read from the card has no tag UIDs to lose. |
| `Documents.OnlyTagUidsAreLost` | core/src/spool.rs:38-39 | Of every operation that is written and read back, number, place, name and spool are kept, except the tag UID. |
| `OfflineStore.RequestIsPrecise` | core/src/filaman/offline.rs:215-237 | A request keeps ids unique and sequence numbers strictly increasing (until saturation) and bounded by the next number, changes the wish for its own spool and no other, and a replacement keeps place and number. |
| `OfflineStore.RequestIsWhole` | core/src/filaman/offline.rs:215-237 | Exactly one operation differs after a request, and it has the spool, place and name that were asked for: the old one for the spool, with its number, or a new one at the end with the next number. |
| `OfflineStore.ChangedExactly` | core/src/filaman/offline.rs:245-249 | A prepared queue counts as changed if and only if something besides a tag UID differs from the queue in memory, or the text on the card is not the one this device would write. |
| `OfflineStore.StoredWants` | core/src/filaman/offline.rs:125-134 | Losing the tag UIDs loses no wish. |
| `OfflineStore.RegistrationAgreesWithScan` | core/src/filaman/offline.rs:136-180 | With no request pending, resolving from the refreshed store identifies a spool as the plain scan of the same server list does. |
| `OfflineStore.PendingIsShown` | core/src/filaman/offline.rs:136-157 | A queued request is what the user is shown, whatever the inventory says: its place and the name it was queued with. |
| `OfflineStore.PendingExactly` | core/src/filaman/offline.rs:136-157 | Pending is shown exactly for the wishes of the queue. |
| `OfflineStore.RequestIsShown` | core/src/filaman/offline.rs:145-237 | Right after a request the user is shown what was requested. |
| `OfflineStore.InventoryIsShown` | core/src/filaman/offline.rs:159-173 | With nothing queued, the last entry of the spool in the snapshot is shown, with the name of the first location that has its place. |
| `OfflineStore.NewIsShown` | core/src/filaman/offline.rs:175-180 | A spool that is neither queued nor listed is new, and the user is told whether there was a list. |
| `OfflineStore.OfflineState.constructor` | core/src/filaman/offline.rs:88-97 | A new store has an empty queue, no inventory and no text. |
| `OfflineStore.OfflineState.Status` | core/src/filaman/offline.rs:99-106 | The counts are those of the queue and the snapshot. |
| `OfflineStore.OfflineState.LoadInventory` | core/src/filaman/offline.rs:112-123 | A snapshot is taken over with its bytes and a fresh index exactly if it decodes with the right schema; otherwise nothing changes. |
| `OfflineStore.OfflineState.LoadQueue` | core/src/filaman/offline.rs:125-134 | A queue is taken over with its bytes exactly if it decodes with the right schema; otherwise nothing changes. |
| `OfflineStore.OfflineState.Resolve` | core/src/filaman/offline.rs:136-180 | A pending operation wins over the index, the index over "new"; the answer is the specification function over inventory and queue. |
| `OfflineStore.OfflineState.PrepareInventory` | core/src/filaman/offline.rs:182-199 | The prepared snapshot is canonical, its bytes are its encoding, and it is changed exactly if the bytes differ; the store is not touched. |
| `OfflineStore.OfflineState.CommitInventory` | core/src/filaman/offline.rs:201-209 | Snapshot, bytes and index become those of the prepared snapshot. |
| `OfflineStore.OfflineState.PrepareStorage` | core/src/filaman/offline.rs:215-237 | The loop that looks for an operation to replace yields the requested queue; the store is not touched. |
| `OfflineStore.OfflineState.PrepareRemaining` | core/src/filaman/offline.rs:239-243 | Only the operations are replaced; the numbering goes on. |
| `OfflineStore.OfflineState.PrepareQueue` | core/src/filaman/offline.rs:245-249 | The bytes are the encoding, and changed means they differ from the bytes in memory. |
| `OfflineStore.OfflineState.CommitQueue` | core/src/filaman/offline.rs:251-254 | Queue and bytes become the prepared ones. |
| `OfflineStore.SnapshotIsCanonical` | core/src/filaman/offline.rs:182-199 | With distinct keys a snapshot has the same bytes whatever order the server lists things in, so an unchanged server causes no write. |
| `FilaManServer.RespondIsSafe` | core/src/filaman.rs:963-991 | One request, whatever becomes of it or of its answer, touches only its own spool, keeps spool ids unique, and completion means the spool is at the requested place. |
| `FilaManServer.ApplyOnlineIsSafe` | core/src/filaman.rs:748-761 | Find, move or import, and move what turned out to exist: completion means the spool is at the requested place, and no other spool moved. |
| `FilaManServer.PassConserves` | core/src/filaman.rs:388-437 | In a pass, completed plus remaining operations are exactly the queue, both in queue order, and everything from the first transport failure on remains. |
| `FilaManServer.PassIsEffective` | core/src/filaman.rs:388-437 | After a pass every completed spool is at its requested place and no spool outside the queue moved. |
| `FilaManServer.PrefixIsHarmless` | core/src/filaman.rs:748-761 | Applying a prefix of the operations first changes nothing about the end result. |
| `FilaManServer.ReplayConverges` | core/src/filaman.rs:382-437 | However often a pass is cut short and started over from the same queue, the pass that finishes leaves the server as one undisturbed pass would. |
| `FilaManAnswers.OwnAnswersAreBelieved` | core/src/filaman.rs:748-761 | The checks of an answer let every answer of the server pass, and what the device concludes from it is what the server did. |
| `FilaManAnswers.ForeignAnswersAreRefused` | core/src/filaman.rs:963-991 | To an import or a move, an answer about another spool, another place or another kind of request is refused. |
| `FilaManAnswers.ImportStatus` | core/src/filaman.rs:748-761 | An import counts only with a status the plugin knows, and as a new spool only with the status for new ones. |
| `FilaManAnswers.ImportNames` | core/src/filaman.rs:963-977 | An import may answer with the canonical or the bare id of the spool, in any letter case, and with no other. |
| `FilaManAnswers.MoveStatus` | core/src/filaman.rs:979-991 | A move counts only with its own status. |
| `FilaManService.PersistedInOrder` | core/src/filaman.rs:783-797 | Writing a queue keeps memory, text and card in agreement, whether the write succeeds or fails. |
| `FilaManService.EnqueuedIsDurable` | core/src/filaman.rs:763-781 | A request reported as queued is on the card; a refused one leaves memory and card as they were. |
| `ServiceLaws.NothingUnfinishedIsDropped` | core/src/filaman.rs:388-437 | Whatever network and card do, the queue after a synchronisation holds operations of the old one in their order and no others, agrees with the card, and every operation that is gone is at its place on the server; a failed write changes nothing on the device; it reports a change exactly if the queue got shorter. |
| `ServiceLaws.WhatStaysAndWhatGoes` | core/src/filaman.rs:388-437 | An operation stays if its first answer does not come; it leaves if it is answered in full, no request before it met an outage and the card takes the write. |
| `ServiceLaws.AnsweredPassEmptiesTheQueue` | core/src/filaman.rs:388-437 | With every request answered and the write going through, the queue is empty in memory and on the card, and every spool is at its place. |
| `ServiceLaws.EnqueueOutcome` | core/src/filaman.rs:763-797 | A request is queued exactly if there is a card and a needed write goes through; then the queue holds it whole and everything else as before, and an unchanged file is not written. |
| `ServiceLaws.KnownSpoolIsMoved` | core/src/filaman.rs:724-727 | A spool whose id is known is moved by one request, and never imported. |
| `ServiceLaws.UnknownSpoolIsLookedFor` | core/src/filaman.rs:748-761 | Any other is looked for, imported only if it is not there, and ends at its place. |
| `FilaManService.Service.constructor` | core/src/filaman.rs:144-158 | A new service is not busy and starts from the offline inventory. |
| `FilaManService.Service.PersistQueue` | core/src/filaman.rs:783-797 | Memory and card move exactly as the specification of a persisted queue says: the write comes first, the commit only after it. |
| `FilaManService.Service.EnqueueStorage` | core/src/filaman.rs:763-781 | Without a card nothing changes; otherwise the requested queue is persisted. |
| `FilaManService.Service.Request` | core/src/filaman.rs:963-991 | A request, the effect it has, and the check of the status, spool and place in its answer amount to one response of the server model. |
| `FilaManService.Service.ApplyStorageOnline` | core/src/filaman.rs:748-761 | The chain of requests amounts to the specification of applying an operation. |
| `FilaManService.Service.ApplyAll` | core/src/filaman.rs:393-424 | The loop over the operations computes one pass: the server afterwards, what remains and how many were completed. |
| `FilaManService.Service.SynchronizeOfflineQueue` | core/src/filaman.rs:382-437 | The accumulator loop and the persisting of the rest compute one synchronisation pass; `busy` is as before, and a busy service changes nothing. |
| `FilaManService.Service.StoreSpoolAt` | core/src/filaman.rs:696-746 | Every outcome of a store: refused, queued offline, applied online, or queued after a transport failure; the online branch leaves the queue alone, and `busy` is released on every path. |
| `FilaManService.Service.RefreshInventory` | core/src/filaman.rs:344-380 | The snapshot is replaced exactly if everything was loaded and any needed write succeeded; an unchanged snapshot is not written; `busy` is released on every path. |
| `FilaManService.Service.RunOnlineMaintenance` | core/src/filaman.rs:330-342 | Synchronise, then refresh when forced, after a change, or every fifteenth time. |
| `SyncProtocol.StepIsSafe` | core/src/filaman.rs:283-292 | Every step of every interleaved operation, every network and card outcome, every change by other clients and every crash keeps the invariant: `busy` is set exactly while one holder is in a critical section, ids are unique, numbers are ordered, and the card holds the committed text or the one about to be committed. |
| `SyncProtocol.StepKeepsPromises` | core/src/filaman.rs:696-746 | No step breaks a promise: a request reported as queued stays wanted until another request for the spool is written over it or a synchronisation pass carries it out. |
| `SyncProtocol.CardHasPromises` | core/src/filaman.rs:783-797 | Whatever is promised is on the card at every moment. |
| `SyncProtocol.RunIsSafe` | core/src/filaman.rs:382-437 | Every reachable state is safe and keeps its promises. |
| `SyncProtocol.AcceptedRequestsAreNotLost` | core/src/filaman.rs:696-746 | In every run, with crashes anywhere and boots that can read the card: a request reported as queued is on the card at every later moment, unless another request for the same spool was accepted since, or a synchronisation pass has carried out this one, which put the spool at its place on the server. |
| `SyncProtocol.RequestsGetQueued` | core/src/filaman.rs:696-746 | And requests do get accepted: from every boot with a card in the slot and the server out of reach there is a run that ends by reporting the asked place of any valid spool as queued. |
| `SyncBlindBoot.NothingIsLostUntilAWrite` | core/src/filaman.rs:223-233 | After a boot that could not read the queue, and as long as no queue is written, a later boot that can read it finds everything. |
| `SyncBlindBoot.BlindBootIsForgiven` | core/src/filaman.rs:194-233 | From any safe state, a boot that could not read the queue, any steps that write no queue, and a boot that can read it lead back to a safe state that keeps every promise. |
| `SyncBlindBoot.BlindBootForgetsExactly` | core/src/filaman.rs:223-233 | After such a boot a request on the card survives a step if and only if the step writes no queue, or writes this very request again. |
| `SyncBlindBoot.AcceptedRequestsSurviveBlindBoots` | core/src/filaman.rs:194-233 | The same over whole runs in which any boot may fail to read the queue, as long as no queue is written between such a boot and the next that can read it. |
| `SyncBlindBoot.RunsAreLong` | core/src/filaman.rs:194-233 | The runs of the interleaved model are exactly those of these runs in which every boot can read the queue. |
| `SyncBlindBoot.OneStoreLosesTheOthers` | core/src/filaman.rs:223-233 | Such a loss can happen: one offline store of another spool right after such a boot is enough. |
| `SyncConvergence.HolderAlwaysLeaves` | core/src/filaman.rs:283-292 | The holder of the lock can always take a step, and each of its steps either releases the lock or brings the release strictly nearer, whatever network and card do. |
| `SyncConvergence.OnlyTheHolderReleases` | core/src/filaman.rs:384-436 | Only a step of the holder, or a crash, clears `busy`. |
| `SyncConvergence.ImportsStayNew` | core/src/filaman.rs:748-761 | While no other client writes, the device never asks to import a spool the server already has, so no canonical id gets two spools, with lost answers, retries and crashes included. |
| `SyncConvergence.CrashesDoNotChangeTheOutcome` | core/src/filaman.rs:382-437 | If every operation is accepted and only this device writes, then once the queue is empty the server is where one undisturbed pass over the original queue would have put it, whatever crashes came in between. |
| `SyncChoices.QueuedWishWins` | core/src/filaman.rs:724-727 | A run, built for every state with a queued request, in which the device itself undoes a later online choice. |
| `SyncChoices.LastChoiceWinsExactly` | core/src/filaman.rs:724-727 | A confirmed online choice outlives every further step that is not about the spool if and only if the queue holds no request for another place. |
| `SyncChoices.ChoiceStands` | core/src/filaman.rs:724-727 | As long as nothing queued or in progress disagrees with a confirmed place, no undisturbed run moves the spool. |
| `SyncRefinement.OperationIsItsAnswers` | core/src/filaman.rs:748-761 | The single-step answers to one operation amount to one application of it. |
| `SyncRefinement.UndisturbedPassIsTheLoop` | core/src/filaman.rs:382-437 | The interleaved model refines the loop: undisturbed steps from any point of a pass end with the loop's server, remaining operations and count. |
| `SyncService.EnqueueStepsAreTheMethod` | core/src/filaman.rs:763-797 | The undisturbed steps of queueing a request leave queue, text, card and server as the method does, for every outcome of the write. |
| `SyncService.SyncStepsAreTheMethod` | core/src/filaman.rs:382-437 | The undisturbed steps of a synchronisation, from taking the lock to the last write, leave queue, text, card and server as the method does, for all answers and outcomes of the write. |
| `SyncService.StoreStepsAreTheMethod` | core/src/filaman.rs:696-746 | So do the undisturbed steps of a store, in reach of the server or not. |
| `SyncService.StoreIsHeardOnce` | core/src/filaman.rs:696-746 | Along a store the user is told exactly once, and what the method answers. |
| `SyncService.Boot` | core/src/filaman.rs:223-233 | A boot starts with the queue the protocol model loads from the file, or with an empty one. |
| `Ndef.BlockAt` | formats/src/openprinttag.rs:133-162 | Reading a block at a cursor, one-byte and three-byte lengths and all bounds errors included, is reading it at the start of the rest. |
| `Ndef.FindNdefMessage` | formats/src/openprinttag.rs:133-162 | The cursor loop finds the first NDEF block of the area, skipping padding and other blocks, stopping at a terminator. |
| `Ndef.NextRecord` | formats/src/openprinttag.rs:164-214 | The cursor arithmetic of the payload search reads exactly the record of section 3.2 of the NDEF 1.0 specification at the cursor. |
| `Ndef.NextUriRecord` | formats/src/openprinttag.rs:371-422 | The separate cursor arithmetic of the address search reads the same record, on every byte string. |
| `Ndef.FindOpenPrintTagPayload` | formats/src/openprinttag.rs:164-214 | The loop returns the first OpenPrintTag payload among the records up to the first message end, or the right error. |
| `Ndef.FindNdefUri` | formats/src/openprinttag.rs:371-422 | The second loop visits the same records as the first and returns the first address, looking one level into smart posters. |
| `Ndef.MessageRoundTrip` | formats/src/openprinttag.rs:133-162 | Whatever blocks and padding come first and whatever follows, the message written is the message found. |
| `NdefLaws.OtherContainersAreRefused` | formats/src/openprinttag.rs:133-139 | A tag area has one of two known containers, or there is no message. |
| `NdefLaws.AreaEnds` | formats/src/openprinttag.rs:140-161 | Nothing behind a terminator is read. |
| `NdefLaws.CutBlockIsInvalid` | formats/src/openprinttag.rs:143-158 | A block cut short at any byte is an error, not an end. |
| `Ndef.RecordRoundTrip` | formats/src/openprinttag.rs:164-214 | Every record, short or long, with or without an id, is read back with its exact size. |
| `Ndef.WalkRoundTrip` | formats/src/openprinttag.rs:164-214 | Walking over written records sees exactly those up to the first message end. |
| `Ndef.PayloadRoundTrip` | formats/src/openprinttag.rs:164-214 | For every list of records what is found is the payload of the first OpenPrintTag record at or before the first message end. |
| `NdefLaws.ChunkedIsRefused` | formats/src/openprinttag.rs:164-177 | A chunked record is refused. |
| `NdefLaws.CutRecordIsInvalid` | formats/src/openprinttag.rs:178-207 | A record cut short at any byte is an error. |
| `NdefLaws.PayloadBeforeTheError` | formats/src/openprinttag.rs:164-214 | A malformed record does not hide a payload in front of it, and its error is the answer if there is none. |
| `NdefLaws.UriRoundTrip` | formats/src/openprinttag.rs:424-469 | An address is the abbreviation of its code and its UTF-8 text, or nothing. |
| `NdefLaws.RecordSays` | formats/src/openprinttag.rs:371-422 | A record is an address, or a poster with records of its own one level deep, or says nothing. |
| `NdefLaws.FirstAddress` | formats/src/openprinttag.rs:371-422 | The address of a message is that of the first record that says one. |
| `Cbor.HeadRoundTrip` | formats/src/openprinttag.rs:488-509 | Heads with arguments of every width read back (section 3 of RFC 8949). |
| `Cbor.StringRoundTrip` | formats/src/openprinttag.rs:525-527 | Definite strings read back. |
| `Cbor.ItemRoundTrip` | formats/src/openprinttag.rs:488-509 | Skipping a written item of any kind, nested to any depth, definite or indefinite, consumes exactly the item. |
| `Cbor.SkippedTextIsUtf8` | formats/src/openprinttag.rs:264-332 | A skipped text must be UTF-8 as well; skipped bytes may be anything. |
| `OpenPrintTag.VisitMap` | formats/src/openprinttag.rs:488-509 | The visiting loop, counted or until a break, folds the visitor over the map. |
| `OpenPrintTag.DecodeRegions` | formats/src/openprinttag.rs:216-262 | The sequence of checks accepts exactly what the region arithmetic on truncated 32-bit values accepts. |
| `OpenPrintTag.AcceptedRegionsAreSound` | formats/src/openprinttag.rs:216-262 | For every byte string: accepted regions lie inside the payload and after the meta map, and no two of meta, main and auxiliary share a byte. |
| `OpenPrintTag.SumsStayInside` | formats/src/openprinttag.rs:88-107 | The sums formed again after the regions are accepted can neither overflow nor leave the payload. |
| `OpenPrintTag.OmittedSizesTile` | formats/src/openprinttag.rs:216-262 | With both sizes omitted and distinct offsets, main and auxiliary tile the payload from the lower offset to the end, in either order; acceptance is characterised exactly. |
| `OpenPrintTagLaws.MetaKeys` | formats/src/openprinttag.rs:216-232 | For every meta map: keys 0 to 3 are offset and size of main, then of auxiliary, modulo 2^32, each from its last entry; a value that is no number is malformed. |
| `OpenPrintTagLaws.RegionsExactly` | formats/src/openprinttag.rs:233-262 | For every written meta map: the regions are exactly those asked for, explicit or filled in, if they are inside and apart, and the map is refused otherwise. |
| `OpenPrintTagLaws.SomethingIsAsked` | formats/src/openprinttag.rs:233-262 | Every meta map of numbers asks for some regions, so the previous law decides about all of them; any other meta map is malformed. |
| `OpenPrintTag.DecodeMain` | formats/src/openprinttag.rs:264-365 | The main decoder computes the specification, size limit and required material class included. |
| `OpenPrintTag.DecodeAux` | formats/src/openprinttag.rs:471-486 | The auxiliary decoder computes the specification. |
| `OpenPrintTag.DecodePayload` | formats/src/openprinttag.rs:88-107 | The payload decoder, with its own bounds checks, computes a specification that has none. |
| `OpenPrintTag.DecodeTagMemory` | formats/src/openprinttag.rs:80-86 | The whole decoder computes the composition of its parts. |
| `OpenPrintTagMeaning.MapRoundTrip` | formats/src/openprinttag.rs:488-509 | A written map, definite or indefinite, is visited entry by entry and left exactly at its end, for every visitor that mirrors a step on values. |
| `OpenPrintTagMeaning.HeadOfValue` | formats/src/openprinttag.rs:537-556 | The head of every written value tells its kind. |
| `OpenPrintTagMeaning.FieldRoundTrip` | formats/src/openprinttag.rs:511-556 | Reading a typed field of a written value succeeds exactly if the value has that type, and yields its content. |
| `OpenPrintTagMeaning.MainRoundTrip` | formats/src/openprinttag.rs:264-365 | Every written main map, whatever follows it, decodes to the fold over its entries. |
| `OpenPrintTagMeaning.AuxRoundTrip` | formats/src/openprinttag.rs:471-486 | The same for the auxiliary map. |
| `OpenPrintTagMeaning.MetaRoundTrip` | formats/src/openprinttag.rs:216-262 | The regions of a payload that starts with a written meta map are those its entries ask for. |
| `OpenPrintTagForms.FoldCollects` | formats/src/openprinttag.rs:298-332 | The fold over main entries fails exactly if some known entry has the wrong type, and otherwise collects fields, last one winning, and secondary colours in order. |
| `OpenPrintTagLaws.MainSays` | formats/src/openprinttag.rs:264-369 | For every written main map: a value of a wrong type is malformed, more than 512 bytes or a missing class are refused, and otherwise every field is what the last entry with its key says, under no other keys, with the secondary colours in order. |
| `OpenPrintTagLaws.AuxSays` | formats/src/openprinttag.rs:471-486 | Key 0 of an auxiliary map is the weight used up and key 4 the storage place, each from its last entry; nothing else changes. |
| `OpenPrintTagForms.FormDoesNotMatter` | formats/src/openprinttag.rs:264-365 | Maps with the same readings, in any widths and forms and with any trailing bytes, decode to the same tag or fail alike, within 512 bytes. |
| `OpenPrintTagForms.UnknownKeysAddNothing` | formats/src/openprinttag.rs:488-509 | Unknown keys with arbitrarily nested values change nothing wherever they are inserted. |
| `OpenPrintTagForms.OrderMattersForColoursOnly` | formats/src/openprinttag.rs:298-332 | Permuting entries with distinct keys keeps acceptance, and keeps the tag if and only if the secondary colours keep their order. |
| `OpenPrintTagForms.PayloadMeaning` | formats/src/openprinttag.rs:88-107 | Every payload that starts with a written meta map, whatever layout it asks for (sizes and offsets explicit or omitted, either order, with or without an auxiliary region): a refused layout is the error of the payload, and otherwise written maps in the regions decode to what their entries mean. |
| `OpenPrintTagForms.InARow` | formats/src/openprinttag.rs:88-107 | Meta, main and auxiliary maps one after the other, with padding, whenever the meta map gives the auxiliary offset and neither sizes nor the main offset. |
| `OpenPrintTagForms.MetaFold` | formats/src/openprinttag.rs:216-262 | A meta map whose only entry is the auxiliary offset, in any width, is such a map. |
| `OpenPrintTagForms.MainAlone` | formats/src/openprinttag.rs:88-107 | An empty meta map gives all the rest to the main map. |
| `OpenPrintTagForms.MemoryRoundTrip` | formats/src/openprinttag.rs:80-86 | A whole tag memory, with other blocks and records around, decodes to the payload's meaning with the first address of the message. |
| `Pn5180Scan.ReadPayload` | shared/src/pn5180_reader.rs:406-437 | An attempt asks for missing blocks in order, authenticates each sector at most once, stops at the first failure and keeps what it read. |
| `Pn5180Scan.OpenSector` | shared/src/pn5180_reader.rs:419-426 | A sector is authenticated exactly when the block before was not in it, and a refusal ends the attempt. |
| `Pn5180Scan.ReadBlock` | shared/src/pn5180_reader.rs:414-434 | One block: open its sector, read it, keep it; a failure leaves the blocks as they were. |
| `Pn5180Scan.ReadVBlock` | shared/src/pn5180_reader.rs:337-353 | Up to three tries at one NFC-V block. |
| `Pn5180Scan.DumpCard` | shared/src/pn5180_reader.rs:336-371 | An announced NFC-V card ends in exactly one dump or one failure. |
| `Pn5180Scan.TryReadOpenPrintTag` | shared/src/pn5180_reader.rs:295-372 | A scan latches a card it found, whether it could be read or not, and announces only memories within the limit. |
| `Pn5180Scan.Missed` | shared/src/pn5180_reader.rs:179-180 | Noting since when nothing was seen, and whether 750 ms have passed. |
| `Pn5180Scan.Latched` | shared/src/pn5180_reader.rs:62-90 | A turn with a latched NFC-V card. |
| `Pn5180Scan.Activate` | shared/src/pn5180_reader.rs:92-155 | From the top of a turn to a target: the card acquired before, the activation, or recovery; a hard error resets the reader, and every error breaks the silence. |
| `Pn5180Scan.Failing` | shared/src/pn5180_reader.rs:122-125 | Noting since when activations have been failing, and whether two seconds have passed. |
| `Pn5180Scan.Recover` | shared/src/pn5180_reader.rs:117-153 | After a soft error: wait, or refresh the field exactly once errors have lasted two seconds; a hard failure of that resets the reader. |
| `Pn5180Scan.NoTarget` | shared/src/pn5180_reader.rs:157-191 | A turn without a target. |
| `Pn5180Scan.MaybeScan` | shared/src/pn5180_reader.rs:158-178 | Every second idle poll scans for NFC-V. |
| `Pn5180Scan.WithTarget` | shared/src/pn5180_reader.rs:192-234 | A turn with a target: keep a completed placement, ignore the other tag, refuse a foreign card, or go on reading. |
| `Pn5180Scan.Attempt` | shared/src/pn5180_reader.rs:236-289 | One attempt and its verdict. |
| `Pn5180Scan.RetryOrGiveUp` | shared/src/pn5180_reader.rs:249-287 | After a failure: another attempt, or the end after five attempts or two without progress. |
| `Pn5180Scan.Turn` | shared/src/pn5180_reader.rs:61-292 | A turn keeps log and variables in agreement with the automaton, and after its beginning reports only what the driver answered in that round. |
| `Pn5180Scan.Run` | shared/src/pn5180_reader.rs:39-293 | For every script of driver answers and clock readings: the log keeps to the rules of the automaton if and only if the card being read is never seen as another kind of card; then at most one of completed, pending and NFC-V completed is held; and the log has one turn for each round, every entry of which reports an answer of that round, or the card acquired at the end of the round before. |
| `ScanRuns.RunsArePlacements` | shared/src/pn5180_reader.rs:61-292 | Over any rounds that never show one identifier as two kinds of card, every run keeps to the rules, announces placements one after the other, each closed by one removal, and holds at most one card. |
| `ScanRuns.TheCardShifts` | shared/src/pn5180_reader.rs:216-223 | Every run over two rounds that show first a 1K card and then another kind of card with its identifier breaks the rules. |
| `ScanRuns.ChangeCanBeShown` | shared/src/pn5180_reader.rs:216-223 | For any two such cards there are such rounds. |
| `ScanVerdicts.FoundCardIsReadOrFails` | shared/src/pn5180_reader.rs:295-372 | In every run, once a scan finds an NFC-V card the same turn announces its contents, if it reports at most 2048 bytes and each block is answered within three tries, and its failure otherwise. |
| `ScanVerdicts.SecondIdlePollScans` | shared/src/pn5180_reader.rs:157-170 | In every run the second idle poll in a row is followed by a scan that finds what the driver found. |
| `ScanVerdicts.AnsweringSpoolIsRead` | shared/src/pn5180_reader.rs:216-248 | In every run a MIFARE Classic 1K card on the free reader whose payload blocks can all be authenticated and read is read in the turn that first sees it, with exactly the answered blocks. |
| `ScanVerdicts.ReacquiredExactly` | shared/src/pn5180_reader.rs:374-397 | A card is acquired again directly, or after a reset that the error calls for and that succeeds. |
| `ScanVerdicts.PresenceExactly` | shared/src/pn5180_reader.rs:57-72 | A latched card is present if its poll shows any card, and a failed poll is no answer. |
| `ScanPlacements.EventsArePlacements` | shared/src/pn5180_reader.rs:61-292 | The events of a run are placements one after the other: refused, or announced with retries 2 to k, k at most 5, and at most one verdict, or an NFC-V placement; each is closed by exactly one removal before the next starts. |
| `ScanPlacements.RemovalFollowsSilence` | shared/src/pn5180_reader.rs:74-88 | A removal is announced only after at least 750 ms in which no poll saw a card and no ISO-A activation failed or was reset; for an ISO-A placement all polls of that time are ISO-A activations, for a latched NFC-V card a failed presence poll counts as seeing nothing. |
| `ScanPlacements.RefreshFollowsTrouble` | shared/src/pn5180_reader.rs:117-136 | The field is refreshed only after at least two seconds in which every activation failed softly. |
| `ScanPlacements.EveryBlockIsReadOnce` | shared/src/pn5180_reader.rs:238-248 | A read spool carries exactly the 11 payload blocks, each read successfully exactly once since the spool was announced, over all attempts. |
| `ScanPlacements.ReadsAreAuthenticated` | shared/src/pn5180_reader.rs:419-432 | Every block is read while the attempt's last authentication is a success for the block's sector with the identifier of the card being read. |
| `ScanPlacements.SectorsAreAskedOnce` | shared/src/pn5180_reader.rs:412-426 | An attempt authenticates no sector twice. |
| `ScanPlacements.GivesUpExactly` | shared/src/pn5180_reader.rs:249-287 | After a failed attempt the reader gives up exactly if it was the fifth or neither it nor the one before brought a block; otherwise it announces the next attempt by number. |
| `ScanPlacements.KeptKindsDoNotShift` | shared/src/pn5180_reader.rs:216-223 | If every card answers with the same kind whenever it is seen, the exception of the run theorem never arises. |
| `CatalogStore.NormalizeRgba` | core/src/catalog.rs:409-415 | Exactly the texts of eight hexadecimal digits, with or without a hash, are accepted, and the result is the same text in capitals. |
| `CatalogStore.NormalizeColors` | core/src/catalog.rs:384-387 | The inner loop succeeds exactly if every colour does. |
| `CatalogStore.HasKey` | core/src/catalog.rs:389-394 | The duplicate check finds a key exactly if it is there. |
| `CatalogStore.AddEntry` | core/src/catalog.rs:371-405 | One turn of the loop keeps the list free of duplicates and incomplete entries. |
| `CatalogStore.ParseCatalog` | core/src/catalog.rs:361-407 | The loop accepts exactly the documents of at most 384 KiB whose entries are all complete and pairwise different in their keys. |
| `CatalogStore.AcceptedExactly` | core/src/catalog.rs:361-407 | Exactly which documents are catalogs, and that every item becomes an entry, in order, with its fields in their places and its colours in capitals with slashes between. |
| `CatalogStore.LookupIsExact` | core/src/catalog.rs:85-105 | A lookup gives the first entry with the material and the code after the last dash of the variant, without one the first with the material and the colours, and nothing exactly if there is neither. |
| `CatalogStore.EveryEntryIsFound` | core/src/catalog.rs:85-105 | An entry of an accepted catalog is found by its own material and code, whatever colours the tag carries, if and only if its colour code has no dash: the lookup splits the variant at its last one. |
| `CatalogStore.DashedEntryIsMissed` | core/src/catalog.rs:85-105 | A catalog with a dash in a colour code is accepted, and its entry is missed by its own key. |
| `CatalogStore.TornIsWholeOrNothing` | core/src/catalog.rs:361-407 | A document cut short at any byte, inside a text or a number too, holds the same catalog if only blanks at its end are missing, and none otherwise. |
| `CatalogStore.CutHasSize` | core/src/catalog.rs:303-327 | What a write cut short at a byte leaves has exactly that many bytes. |
| `CatalogStore.CatalogService.constructor` | core/src/catalog.rs:156-170 | A new service has no catalog. |
| `CatalogStore.CatalogService.LoadFromSd` | core/src/catalog.rs:188-225 | The first valid file of staging, catalog and legacy is loaded; without one nothing changes. |
| `CatalogStore.CatalogService.Update` | core/src/catalog.rs:298-348 | The catalog in memory changes only after every write has succeeded, and then it is what both files hold; a failed write stops the update where it is. |
| `CatalogStore.InterruptionsAreHarmless` | core/src/catalog.rs:303-327 | From any card with a valid catalog file, an update stopped at any byte leaves a card from which a catalog is loaded; it says exactly which of the old, the new and the staged one. |
| `CatalogStore.SurvivesExactly` | core/src/catalog.rs:204-222 | No interruption can lose the catalog if and only if the catalog file or the legacy file is valid beforehand. |
| `CatalogStore.TwoInterruptionsLoseTheCatalog` | core/src/catalog.rs:303-327 | A second write cut short, and then the first write of the next update: nothing is left to load if and only if each cut takes more than blanks, which any early enough cut does. |
| `CatalogStore.StagingAloneIsHarmless` | core/src/catalog.rs:303-327 | Any number of updates, interrupted at any bytes, keeps a catalog loadable if none cuts more than blanks off a second write. |
| `WebInstaller.RowRoundTrip` | scripts/prepare-web-installer.py:30-36 | A table row reads as a partition if and only if it is the row written for that partition. |
| `WebInstaller.ReadTable` | scripts/prepare-web-installer.py:30-36 | The loop over the rows reads the table or stops at the first row that is none. |
| `WebInstaller.FlashParts` | scripts/prepare-web-installer.py:26-55 | Parts are returned exactly for a full image with the reviewed table, byte for byte, its checksum, and the application both ways; every refusal names a defect the images have. |
| `InstallerLaws.AcceptedExactly` | scripts/prepare-web-installer.py:26-46 | Accepted are exactly the images that read as the reviewed layout, with its checksum and the application both ways. |
| `InstallerLaws.DefectsAreReal` | scripts/prepare-web-installer.py:26-46 | Whatever an image is refused for makes it unacceptable. |
| `InstallerLaws.TableIsFixed` | scripts/prepare-web-installer.py:29-41 | No byte of an accepted table, its end marker or its checksum can be another. |
| `InstallerLaws.LayoutTiles` | scripts/prepare-web-installer.py:15-23 | The reviewed partitions lie one behind the other, with one gap, up to the end of the device. |
| `InstallerLaws.FilesOfARelease` | scripts/prepare-web-installer.py:50-55 | Names, offsets and contents of the four files. |
| `WebInstaller.FlashPart` | scripts/test_web_installer.py:26-30 | Erasing and writing in place changes the device exactly as specified. |
| `WebInstaller.Flash` | scripts/test_web_installer.py:26-30 | Flashing part after part composes. |
| `WebInstaller.OrderDoesNotMatter` | scripts/test_web_installer.py:26-30 | If no two parts touch the same sector, every order of writing gives the same content. |
| `WebInstaller.AcceptedPartsAreApart` | scripts/prepare-web-installer.py:48-55 | The four parts of an accepted pair touch pairwise different sectors and fit the flash. |
| `WebInstaller.SettingsSurvive` | scripts/prepare-web-installer.py:48-55 | For every accepted pair and every earlier content, lic, nvs, phy_init, map and ota_1 keep every byte. |
| `InstallerLaws.BytesSurvive` | scripts/prepare-web-installer.py:50-55 | Every byte between the update selector and the first application survives, and the whole second application. |
| `WebInstaller.ReleaseIsInstalled` | scripts/prepare-web-installer.py:48-55 | Boot loader and table are the image's, otadata is erased, the application slot begins with the application. |
| `MaterialSlugs.Slugify` | core/src/openprinttag_catalog.rs:239-254 | The loop with its separator flag computes the hyphenated lower-case words. |
| `MaterialSlugs.WordsRoundTrip` | core/src/openprinttag_catalog.rs:239-254 | Splitting a slug gives back the words it was made of. |
| `MaterialSlugs.SlugIsTheWords` | core/src/openprinttag_catalog.rs:239-254 | Two texts have the same slug if and only if they have the same words ignoring case, whatever separates them. |
| `MaterialSlugs.SlugIsIdempotent` | core/src/openprinttag_catalog.rs:239-254 | A slug is its own slug. |
| `SlugLaws.SlugKeeps` | core/src/openprinttag_catalog.rs:239-254 | A slug has the ASCII letters and digits of the text, in order and in lower case. |
| `SlugLaws.SlugShape` | core/src/openprinttag_catalog.rs:239-254 | Besides them it has single hyphens between, and none at the ends. |
| `SlugLaws.LookedUpBy` | core/src/openprinttag_catalog.rs:224-237 | The material slug is that of the name if its words begin with those of the brand, and of brand and name together otherwise. |
| `MaterialSlugs.SlugsAreTheirOwn` | core/src/openprinttag_catalog.rs:224-237 | Looking a material up by its own slugs gives the same slugs. |
| `MaterialSlugs.CacheKey` | core/src/openprinttag_catalog.rs:256-263 | The loop computes the 32-bit FNV-1a hash in eight hexadecimal digits. |
| `MaterialSlugs.PrimeIsInvertible` | core/src/openprinttag_catalog.rs:256-263 | Multiplying by the prime modulo 2^32 is undone by multiplying by 0x359C449B. |
| `MaterialSlugs.OneByteNeverCollides` | core/src/openprinttag_catalog.rs:256-263 | Texts of equal length that differ in one byte never collide. |
| `MaterialSlugs.SuffixKeepsCollisions` | core/src/openprinttag_catalog.rs:256-263 | A common suffix neither creates nor removes a collision. |
| `MaterialSlugs.KeysAreHashes` | core/src/openprinttag_catalog.rs:256-263 | Keys are equal if and only if hashes are. |
| `SlugLaws.KnownHashes` | core/src/openprinttag_catalog.rs:256-263 | The published FNV-1a hashes of the empty text and of the letter a. |
| `KnownAnswers.KnownTag` | formats/src/openprinttag.rs:80-86 | A tag given byte by byte decodes to its class and its address. |
| `KnownAnswers.KnownRegions` | formats/src/openprinttag.rs:216-262 | A meta map given byte by byte, with explicit sizes and an explicit auxiliary offset, gives these regions. |
| `KnownAnswers.Rfc8949Scalars` | formats/src/openprinttag.rs:488-509 | The writer the round trips are about writes the scalar examples of appendix A of RFC 8949. |
| `KnownAnswers.Rfc8949Array` | formats/src/openprinttag.rs:488-509 | And its nested array. |
| `KnownAnswers.PayloadIsData` | shared/src/nfc.rs:81-82 | Payload blocks are data blocks in ascending order, never the first block of a card or the last of a sector. |
| `KnownAnswers.Kinds` | shared/src/pn5180_reader.rs:399-441 | Which cards count as MIFARE Classic 1K, and which errors call for a reset. |
| `KnownAnswers.Limits` | shared/src/pn5180_reader.rs:25-31 | The numbers the program is built on: pages, retries, times, sizes. |

## Left out

- HTTP, TLS, DNS and JSON parsing of server answers: input and output through foreign crates; what they leave of an
  answer is its status, spool and place, or that it is unusable.
- `load_locations` and the filter for ineligible locations: the locations are a parameter.
- Settings, registration, heartbeat contents and log texts: only the lock, the import switch and the offline flag they
  touch are modelled.
- Descriptive fields of a spool and the import payload: they do not influence where a spool is stored.
- Aliasing and update in place in the interleaved protocol: `SyncProtocol` works on values; the classes in
  `FilaManService` have the fields, and `SyncRefinement` ties an undisturbed run of the protocol to their loop.
- minicbor's verdict on malformed items: the CBOR reader follows RFC 8949, and a malformed item it accepts or refuses
  may be judged differently by the crate; on well-formed items the two agree.
- OpenPrintTag.DecodeMain: fields are kept in a map from key to field, numbers as the integer or the bits on the tag, and
  temperature ranges are not regrouped, because nothing is decided by them.
- FilaManService.Service.StoreSpoolAt: does not include the wait for the first heartbeat, which is a step of its own in
  `SyncProtocol` (`Waiting`), because other operations run during it.
- CatalogStore.ParseCatalog: sizes are those of the tokens of a document, because the text of a document is not modelled.
- UUID derivation, key derivation, colour names and image loading: opaque primitives or single facts.
- Register, SPI and BUSY handling of the PN5180, and the PN532 loop: hardware, and a loop that rests on another crate.
- Poll intervals and delays: time is what the clock readings say.
- `updating`, periodic updates and the settings file of the catalog service: a flag and a timer around the update.
- ScanPlacements.EventsArePlacements: does not carry the text of details, which is for people.
- `prepare` of the installer script: file copying, the manifest and the CRC check around `flash_parts`.
