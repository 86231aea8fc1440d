/** The planner's output alphabet and its per-library input snapshot. */
module SyncActions {
  import opened SyncTypes
  import opened WriteBatches

  /** One unit of work for the sync executor. */
  datatype Action =
    | LoadKeyPermissions
    | SyncGroupVersions
    | CreateLibraryActions(libraries: Libraries, options: CreateLibraryActionsOptions)
    | SyncSettings(libraryId: LibraryIdentifier, version: int)
    | SyncDeletions(libraryId: LibraryIdentifier, version: int)
    | StoreDeletionVersion(libraryId: LibraryIdentifier, version: int)
    | SyncVersions(libraryId: LibraryIdentifier, objectS: SyncObject, version: int, checkRemote: bool)
    | SyncBatchesToDb(batches: seq<DownloadBatch>)
    | StoreVersion(version: int, libraryId: LibraryIdentifier, objectS: SyncObject)
    | SubmitWriteBatch(batch: WriteBatch)
    | SubmitDeleteBatch(deleteBatch: DeleteBatch)
    | CreateUploadActions(libraryId: LibraryIdentifier, hadOtherWriteActions: bool, canEditFiles: bool)
    | PerformWebDavDeletions(libraryId: LibraryIdentifier)
    | ResolveGroupMetadataWritePermission(groupId: int, name: string)
    | ResolveDeletedGroup(groupId: int, name: string)
    | SyncGroupToDb(groupId: int)

  /** A snapshot of one library's sync-relevant state. */
  datatype LibraryData = LibraryData(
    identifier: LibraryIdentifier,
    name: string,
    versions: Versions,
    updates: seq<WriteBatch>,
    deletions: seq<DeleteBatch>,
    canEditMetadata: bool,
    canEditFiles: bool,
    hasUpload: bool,
    hasWebDavDeletions: bool)

  /** Actions that fetch remote state of one library. */
  predicate IsDownloadAction(a: Action)
  {
    a.SyncSettings? || a.SyncDeletions? || a.StoreDeletionVersion? || a.SyncVersions?
  }

  /** Actions that push local state of one library, or resolve why it cannot be pushed. */
  predicate IsWriteAction(a: Action)
  {
    a.SubmitWriteBatch? || a.SubmitDeleteBatch? || a.CreateUploadActions?
    || a.ResolveGroupMetadataWritePermission?
  }

  /** A download action carries the counter of `versions` for what it downloads. */
  predicate MatchesVersions(a: Action, versions: Versions)
  {
    match a
    case SyncSettings(_, v) => v == versions.settings
    case SyncDeletions(_, v) => v == versions.deletions
    case StoreDeletionVersion(_, v) => v == versions.deletions
    case SyncVersions(_, o, v, _) => v == VersionOf(versions, o)
    case _ => true
  }

  /** The deletion log actions: fetching deletions and persisting their version. */
  predicate IsDeletionAction(a: Action)
  {
    a.SyncDeletions? || a.StoreDeletionVersion?
  }
}
