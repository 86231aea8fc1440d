# Zotero Android sync action planner, in Dafny

This project models the sync action planner of the Zotero Android app (`ActionsCreator`) and proves properties of it. A sync run has a scope (all libraries or a list of library identifiers) and a `SyncKind`. For each library the planner also gets a snapshot: its identifier, name, remote `Versions`, pending write and delete batches, and permission and WebDAV flags. From these it computes the ordered list of `Action`s that the sync executor runs. The planner performs no I/O, and each of its operations is a total function of its arguments.

Four smaller components are modelled alongside it:

- `WriteBatch` with its re-versioning copy.
- The `Attachment` value with its file-location transitions.
- The `ItemAccessory` projection.
- The `OnyxPenDetector`, an edge-triggered stylus/finger state machine.

Layout, one module per file:

| file | module | models |
|---|---|---|
| `wrappers.dfy` | `Wrappers` | Kotlin nullable values as `Option` |
| `seqs.dfy` | `Seqs` | `List.map`, `Integer.min`, concatenation of lists, sums |
| `sync_types.dfy` | `SyncTypes` | `LibraryIdentifier`, `Libraries`, `SyncKind`, `SyncObject`, `Versions`, `DeleteBatch`, `DownloadBatch`, `CreateLibraryActionsOptions` |
| `write_batch.dfy` | `WriteBatches` | `WriteBatch.kt` |
| `sync_action.dfy` | `SyncActions` | `Action` and `LibraryData` |
| `actions_creator.dfy` | `ActionsCreator` | `ActionsCreator.kt` |
| `attachment.dfy` | `Attachments` | `Attachment.kt` |
| `item_accessory.dfy` | `ItemAccessories` | `ItemAccessory.kt` |
| `onyx_pen_detector.dfy` | `OnyxPen` | `OnyxPenDetector.kt` |

`Action`, `Libraries`, `LibraryIdentifier`, `SyncKind`, `SyncObject`, `Versions`, `LibraryData`, `DeleteBatch`, `DownloadBatch` and `CreateLibraryActionsOptions` are declared elsewhere in the app and are not part of this model. They are rebuilt as datatypes from how `ActionsCreator.kt` uses them.

The planner follows the source's own shape:

- The `when`-expressions (`createInitialActions`, `libraryActionsOptions`, `createDownloadActions`, `createLibraryWriteActions`) are functions.
- The code that fills mutable lists in loops is written as methods, each proved against a specification function: `createUpdateActions`, both `createLibraryActions` overloads, `createBatchObjects`, `createBatchedObjectActions` and `createGroupActions`.
- The pen detector is a class whose field is updated in place. The callbacks it fires are recorded in a ghost log.

The batch size starts at 10. After each batch it doubles while it is below the maximum, and it is capped at the maximum. So batch `i` is capped at `max(10, min(10·2^i, maxCount))`. The batching lemmas hold for every maximum, including one below 10, where the source keeps batches of 10. For the download maximum of 50 the caps are 10, 20, 40, then 50 forever.

## Model

| member | source | states |
|---|---|---|
| `ActionsCreator.LibraryActionsOptions` | app/src/main/java/org/zotero/android/sync/ActionsCreator.kt:30-40 | full and collectionsOnly give exactly `[onlyDownloads]`; normal, ignoreIndividualDelays and keysOnly give exactly `[automatic]`; `onlyWrites` occurs only for prioritizeDownloads, and then as `[onlyDownloads, onlyWrites]` in that order |
| `ActionsCreator.DeferredLibraryActions` | app/src/main/java/org/zotero/android/sync/ActionsCreator.kt:22-25 | one `createLibraryActions(scope, option)` per option, same length, same order |
| `ActionsCreator.CreateInitialActions` | app/src/main/java/org/zotero/android/sync/ActionsCreator.kt:9-28 | always starts with `loadKeyPermissions`; keysOnly gives only that; `syncGroupVersions` is planned iff the kind is not keysOnly and the scope is `all` or names a group, and then the plan is exactly `[loadKeyPermissions, syncGroupVersions]`; otherwise the rest is one deferred library action per option of the kind |
| `ActionsCreator.KeysOnlyIgnoresScope` | app/src/main/java/org/zotero/android/sync/ActionsCreator.kt:10-12 | any two scopes give the same keys-only plan, `[loadKeyPermissions]` |
| `ActionsCreator.GroupScopeShortCircuits` | app/src/main/java/org/zotero/android/sync/ActionsCreator.kt:18-21 | `specific([group(5)])` with a normal sync gives `[loadKeyPermissions, syncGroupVersions]`, never library actions |
| `ActionsCreator.CreateDownloadActions` | app/src/main/java/org/zotero/android/sync/ActionsCreator.kt:153-230 | empty iff keysOnly; collectionsOnly gives a single `syncVersions(collection)`; every other kind gives 7 actions, settings first, each object type synced once; every action is a download action for the given library carrying the matching `Versions` counter, and every `syncVersions` checks the remote; the four `syncVersions` come in the order collection, search, item, trash; full puts both deletion actions before every `syncVersions`, the incremental kinds after all of them; `storeDeletionVersion` immediately follows `syncDeletions` |
| `ActionsCreator.UpdateActions` | app/src/main/java/org/zotero/android/sync/ActionsCreator.kt:232-256 | length `|updates| + |deletions| + 1`; one `submitWriteBatch` per update in order, then one `submitDeleteBatch` per deletion in order, then `createUploadActions(library, updates or deletions non-empty, canEditFiles)` last |
| `ActionsCreator.CreateUpdateActions` | app/src/main/java/org/zotero/android/sync/ActionsCreator.kt:232-256 | the two append loops build exactly `UpdateActions` |
| `ActionsCreator.CreateLibraryWriteActions` | app/src/main/java/org/zotero/android/sync/ActionsCreator.kt:123-151 | a group library without metadata permission gives exactly `[resolveGroupMetadataWritePermission(groupId, name)]` with count 0; otherwise the update actions with count `|updates| + |deletions|`; the count is never negative, the list never empty, and every action is a write action |
| `ActionsCreator.ReadOnlyGroupRefusesWrites` | app/src/main/java/org/zotero/android/sync/ActionsCreator.kt:134-142 | for a read-only group, adding pending updates does not change the result: one action, count 0 |
| `ActionsCreator.LibraryActions` | app/src/main/java/org/zotero/android/sync/ActionsCreator.kt:66-121 | the per-library write count is never negative |
| `ActionsCreator.DownloadsIgnorePendingWrites` | app/src/main/java/org/zotero/android/sync/ActionsCreator.kt:72-76 | onlyDownloads gives the library's download actions with count 0, and the same plan as with no pending work at all |
| `ActionsCreator.WritesTakePrecedence` | app/src/main/java/org/zotero/android/sync/ActionsCreator.kt:79-118 | in onlyWrites and automatic, pending updates, deletions or upload give the write actions followed by the optional WebDAV action, with the write count of `createLibraryWriteActions`, and no download action at all |
| `ActionsCreator.NoPendingWrites` | app/src/main/java/org/zotero/android/sync/ActionsCreator.kt:79-118 | without pending work, automatic gives the download actions (then the optional WebDAV action) and onlyWrites gives only the optional WebDAV action, both with count 0 |
| `ActionsCreator.WebDavDeletionsLastAndOnce` | app/src/main/java/org/zotero/android/sync/ActionsCreator.kt:79-118 | in onlyWrites and automatic, `performWebDavDeletions(identifier)` occurs exactly once iff `hasWebDavDeletions`, and is then the last action |
| `ActionsCreator.CreateLibraryActionsFor` | app/src/main/java/org/zotero/android/sync/ActionsCreator.kt:66-121 | the per-library overload, filling a mutable list, computes exactly `LibraryActions` |
| `ActionsCreator.AllLibraryActionsAppend` | app/src/main/java/org/zotero/android/sync/ActionsCreator.kt:50-60 | planning two runs of libraries concatenates their actions and adds their write counts, so the plan is the per-library plans in input order |
| `ActionsCreator.TotalWriteCountNonNegative` | app/src/main/java/org/zotero/android/sync/ActionsCreator.kt:47-60 | the summed write count is never negative |
| `ActionsCreator.DownloadsOnlyCountNoWrites` | app/src/main/java/org/zotero/android/sync/ActionsCreator.kt:42-76 | an onlyDownloads pass over any libraries counts 0 writes and plans only download actions |
| `ActionsCreator.CreateLibraryActions` | app/src/main/java/org/zotero/android/sync/ActionsCreator.kt:42-64 | the loop returns the concatenation of the per-library plans in input order and the sum of their write counts (never negative); the index is null iff the option is automatic, and 0 otherwise |
| `ActionsCreator.NextBatchSize` | app/src/main/java/org/zotero/android/sync/ActionsCreator.kt:282-285 | the batch size never shrinks, never exceeds the larger of itself and the maximum, and below the maximum becomes `min(2·size, max)` |
| `ActionsCreator.BatchKeysFlatten` | app/src/main/java/org/zotero/android/sync/ActionsCreator.kt:258-289 | concatenating the batch key lists gives back the keys, in order |
| `ActionsCreator.BatchKeysSizes` | app/src/main/java/org/zotero/android/sync/ActionsCreator.kt:269-286 | no batches iff no keys; every batch is non-empty and within the cap of its index; every batch but the last is exactly at its cap |
| `ActionsCreator.BatchSizeAtClosedForm` | app/src/main/java/org/zotero/android/sync/ActionsCreator.kt:265-285 | the cap of batch `i` is `max(10, min(10·2^i, maxCount))` |
| `ActionsCreator.DownloadBatchCaps` | app/src/main/java/org/zotero/android/sync/ActionsCreator.kt:264-285 | with the download maximum 50 the caps are 10, 20, 40 and then 50 |
| `ActionsCreator.BatchSizeBounded` | app/src/main/java/org/zotero/android/sync/ActionsCreator.kt:264-285 | for a maximum of at least 10 every cap lies between 10 and the maximum |
| `ActionsCreator.Batches135` | app/src/main/java/org/zotero/android/sync/ActionsCreator.kt:258-289 | 135 keys give batches of 10, 20, 40, 50 and 15 keys |
| `ActionsCreator.BatchKeysStep` | app/src/main/java/org/zotero/android/sync/ActionsCreator.kt:269-286 | one turn of the loop takes `keys[lowerBound..min(size, lowerBound + batchSize)]` and leaves the batches of the rest at the next size |
| `ActionsCreator.DownloadBatchesCoverKeys` | app/src/main/java/org/zotero/android/sync/ActionsCreator.kt:258-289 | the download batches together hold exactly the keys in order; each is non-empty, holds at most 50 keys and carries the given library, object type and version; there are none iff there are no keys |
| `ActionsCreator.CreateBatchObjects` | app/src/main/java/org/zotero/android/sync/ActionsCreator.kt:258-289 | the `while` loop over `lowerBound` and `batchSize` returns exactly the specified batches, which cover the keys in order, are non-empty, hold at most 50 keys and share the library, type and version given |
| `ActionsCreator.CreateBatchedObjectActions` | app/src/main/java/org/zotero/android/sync/ActionsCreator.kt:291-319 | no keys give `[storeVersion]` or `[]`; otherwise `syncBatchesToDb` of the non-empty batch list first, followed by `storeVersion(version, library, type)` iff `shouldStoreVersion` |
| `ActionsCreator.ScopedGroupIdsExact` | app/src/main/java/org/zotero/android/sync/ActionsCreator.kt:332-346 | for a specific scope a group id is refreshed iff it is among `updateIds` and the scope names that group; custom libraries contribute nothing |
| `ActionsCreator.ScopedGroupIdsLength` | app/src/main/java/org/zotero/android/sync/ActionsCreator.kt:332-346 | at most one refresh per scope entry, and none for a scope of custom libraries only |
| `ActionsCreator.CreateGroupActions` | app/src/main/java/org/zotero/android/sync/ActionsCreator.kt:321-356 | one `resolveDeletedGroup(id, name)` per deleted group in order, then one `syncGroupToDb` per group to refresh, then one deferred library action per option of the kind; every refreshed id is among `updateIds`; for a specific scope, refreshed ids are exactly the updated groups the scope names |
| `WriteBatches.Copy` | app/src/main/java/org/zotero/android/sync/WriteBatch.kt:14-22 | the copy carries the new version and the same library, object type, parameters and change ids |
| `WriteBatches.CopyOwnVersion` | app/src/main/java/org/zotero/android/sync/WriteBatch.kt:14-22 | copying with the batch's own version gives a field-wise equal batch |
| `WriteBatches.CopyLastVersionWins` | app/src/main/java/org/zotero/android/sync/WriteBatch.kt:14-22 | two successive copies equal one copy with the last version |
| `Attachments.Id` | app/src/main/java/org/zotero/android/database/objects/Attachment.kt:19-22 | the id is the key |
| `Attachments.HasUrl` | app/src/main/java/org/zotero/android/database/objects/Attachment.kt:24-29 | a link attachment always has a URL; a file attachment has one iff its `url` is set |
| `Attachments.Location` | app/src/main/java/org/zotero/android/database/objects/Attachment.kt:31-37 | a location exists iff the attachment is a file, and it is the file's stored location |
| `Attachments.ChangedIf` | app/src/main/java/org/zotero/android/database/objects/Attachment.kt:60-82 | a result exists iff the attachment is a file whose current location satisfies the condition; it is then the same attachment relocated to the new location |
| `Attachments.Changed` | app/src/main/java/org/zotero/android/database/objects/Attachment.kt:84-106 | a result exists iff the attachment is a file not already at the location; it is then relocated there with filename, content type, link type, title, url, date, key and library unchanged; it equals the conditional overload with the condition "differs from the target" |
| `Attachments.ChangedIdempotent` | app/src/main/java/org/zotero/android/database/objects/Attachment.kt:84-106 | relocating a relocated attachment to the same place gives null |
| `Attachments.ChangedKeepsIdentity` | app/src/main/java/org/zotero/android/database/objects/Attachment.kt:84-106 | relocation keeps the id and whether the attachment has a URL |
| `ItemAccessories.AttachmentGet` | app/src/main/java/org/zotero/android/screens/allitems/data/ItemAccessory.kt:10-16 | non-null iff the accessory is an attachment, and then exactly the wrapped attachment; DOI and URL accessories give null |
| `ItemAccessories.AttachmentGetInverts` | app/src/main/java/org/zotero/android/screens/allitems/data/ItemAccessory.kt:10-16 | projecting a wrapped attachment gives it back, and only the accessory wrapping `a` projects to `a` |
| `OnyxPen.Transition` | app/src/main/java/org/zotero/android/pdf/reader/onyx/OnyxPenDetector.kt:27-39 | after an event the state is whether it came from the stylus; at most one callback fires; the pen callback fires iff the state switches from finger to pen, the finger callback iff from pen to finger, and none when the kind is unchanged |
| `OnyxPen.ReplayEndsWithLastEvent` | app/src/main/java/org/zotero/android/pdf/reader/onyx/OnyxPenDetector.kt:25-42 | after any non-empty run of events the state is that of the last event |
| `OnyxPen.ReplaySameKindIsSilent` | app/src/main/java/org/zotero/android/pdf/reader/onyx/OnyxPenDetector.kt:39 | a run of events of the current kind changes nothing and fires no callback |
| `OnyxPen.OnyxPenDetector.constructor` | app/src/main/java/org/zotero/android/pdf/reader/onyx/OnyxPenDetector.kt:10-14 | a fresh detector is not in pen mode and has fired nothing |
| `OnyxPen.OnyxPenDetector.IsPenActive` | app/src/main/java/org/zotero/android/pdf/reader/onyx/OnyxPenDetector.kt:19 | reports the stored state |
| `OnyxPen.OnyxPenDetector.HandleMotionEvent` | app/src/main/java/org/zotero/android/pdf/reader/onyx/OnyxPenDetector.kt:25-42 | never consumes the event; the new state is whether the event came from the stylus; the callbacks fired are exactly those of `Transition`; keeps the invariant that every finger callback directly follows a pen callback and pen mode was announced by a pen callback |
| `OnyxPen.OnyxPenDetector.Reset` | app/src/main/java/org/zotero/android/pdf/reader/onyx/OnyxPenDetector.kt:47-49 | leaves pen mode without firing a callback |

`WriteBatches.MaxCount` and `SyncTypes.DownloadBatchMaxCount` are the constant 50 (app/src/main/java/org/zotero/android/sync/WriteBatch.kt:10-12). Every planner operation is a function of its arguments. Planning twice with the same inputs therefore gives the same plan.

## Left out

- `DownloadBatch.maxCount` is declared outside the modelled files. It is taken to be 50, equal to `WriteBatch.maxCount`.
- Kotlin's 32-bit `Int` is modelled as an unbounded integer. `lowerBound += batchSize` in `createBatchObjects` could only overflow for key lists near 2^31 entries, and that case is not modelled.
- `LibraryIdentifier.custom` carries a payload that the planner never reads. It is modelled as a constant `Custom`.
- WriteBatch parameter values (`Any`) are modelled as opaque strings.
- `Attachment.dateAdded` (`java.util.Date`) is an opaque instant. The default values `url = null` and `dateAdded = Date()` read the clock, so they are not modelled. Parcelable support is not modelled.
- `Attachment.initWithItemAndKind` reads a database item, its fields and logs. None of these are part of this model.
- `OnyxPenDetector`: the Android `MotionEvent` is reduced to whether its tool type is the stylus. The callbacks are recorded in a ghost log instead of being run. Logging is not modelled.
- The multi-library loop appends each library's actions with one concatenation rather than `forEach { add }`. The resulting list is the same.
- Dependency-injection annotations carry no behaviour and are not modelled.
