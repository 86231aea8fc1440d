/** The value types the sync planner reads. They are declared elsewhere in the
    app; here they are rebuilt from how `ActionsCreator` uses them. */
module SyncTypes {

  /** A library is the user's own library (`custom`) or a group library. */
  datatype LibraryIdentifier = Custom | Group(groupId: int)
  {
    predicate IsGroupLibrary() { Group? }
  }

  /** The scope of a sync run. */
  datatype Libraries = All | Specific(identifiers: seq<LibraryIdentifier>)

  datatype SyncKind =
    | Full
    | CollectionsOnly
    | KeysOnly
    | Normal
    | IgnoreIndividualDelays
    | PrioritizeDownloads

  /** The object types whose versions are synchronised. */
  datatype SyncObject = Collection | Search | Item | Trash | Settings

  datatype CreateLibraryActionsOptions = OnlyDownloads | OnlyWrites | Automatic

  /** Last known remote version, per object type, of one library. */
  datatype Versions = Versions(
    collections: int,
    searches: int,
    items: int,
    trash: int,
    deletions: int,
    settings: int)

  /** The counter of `versions` that belongs to object type `o`. */
  function VersionOf(versions: Versions, o: SyncObject): int
  {
    match o
    case Collection => versions.collections
    case Search => versions.searches
    case Item => versions.items
    case Trash => versions.trash
    case Settings => versions.settings
  }

  datatype DeleteBatch = DeleteBatch(
    libraryId: LibraryIdentifier,
    objectS: SyncObject,
    version: int,
    keys: seq<string>)

  datatype DownloadBatch = DownloadBatch(
    libraryId: LibraryIdentifier,
    objectS: SyncObject,
    keys: seq<string>,
    version: int)

  /** Largest number of keys one download request carries. */
  const DownloadBatchMaxCount: nat := 50
}
