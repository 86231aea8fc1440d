/** The sync action planner: from a sync scope, a sync kind and per-library
    snapshots it computes the ordered list of actions the executor runs.
    Every operation is a total function of its arguments. */
module ActionsCreator {
  import opened Wrappers
  import opened Seqs
  import opened SyncTypes
  import opened WriteBatches
  import opened SyncActions

  /** The actions planned for one library and how many of them are writes. */
  datatype LibraryPlan = LibraryPlan(actions: seq<Action>, writeCount: int)

  predicate HasGroupLibrary(ids: seq<LibraryIdentifier>)
  {
    exists i :: 0 <= i < |ids| && ids[i].IsGroupLibrary()
  }

  // ---------------------------------------------------------------------------
  // Initial actions and library options
  // ---------------------------------------------------------------------------

  /** Which per-library passes a sync kind asks for, in the order they run. */
  function LibraryActionsOptions(kind: SyncKind): (r: seq<CreateLibraryActionsOptions>)
    ensures 1 <= |r| <= 2
    ensures r == [OnlyDownloads] <==> kind == Full || kind == CollectionsOnly
    ensures r == [Automatic] <==> kind == IgnoreIndividualDelays || kind == Normal || kind == KeysOnly
    ensures OnlyWrites in r <==> kind == PrioritizeDownloads
    ensures OnlyWrites in r ==> r == [OnlyDownloads, OnlyWrites]
  {
    match kind
    case Full | CollectionsOnly => [OnlyDownloads]
    case IgnoreIndividualDelays | Normal | KeysOnly => [Automatic]
    case PrioritizeDownloads => [OnlyDownloads, OnlyWrites]
  }

  /** One deferred `createLibraryActions` action per option, for the given scope. */
  function DeferredLibraryActions(libraries: Libraries, options: seq<CreateLibraryActionsOptions>): (r: seq<Action>)
    ensures |r| == |options|
    ensures forall i :: 0 <= i < |options| ==> r[i] == Action.CreateLibraryActions(libraries, options[i])
  {
    Map((o: CreateLibraryActionsOptions) => Action.CreateLibraryActions(libraries, o), options)
  }

  /** The first actions of a sync run. */
  function CreateInitialActions(libraries: Libraries, kind: SyncKind): (r: seq<Action>)
    ensures |r| >= 1 && r[0] == Action.LoadKeyPermissions
    ensures kind == KeysOnly ==> r == [Action.LoadKeyPermissions]
    ensures Action.SyncGroupVersions in r
            <==> kind != KeysOnly && (libraries.All? || HasGroupLibrary(libraries.identifiers))
    ensures Action.SyncGroupVersions in r ==> r == [Action.LoadKeyPermissions, Action.SyncGroupVersions]
    ensures kind != KeysOnly && libraries.Specific? && !HasGroupLibrary(libraries.identifiers)
            ==> r[1..] == DeferredLibraryActions(libraries, LibraryActionsOptions(kind))
    ensures forall i :: 1 <= i < |r| ==> r[i].SyncGroupVersions? || r[i] == Action.CreateLibraryActions(libraries, r[i].options)
  {
    if kind == KeysOnly then
      [Action.LoadKeyPermissions]
    else
      match libraries
      case All => [Action.LoadKeyPermissions, Action.SyncGroupVersions]
      case Specific(ids) =>
        if HasGroupLibrary(ids) then
          [Action.LoadKeyPermissions, Action.SyncGroupVersions]
        else
          [Action.LoadKeyPermissions] + DeferredLibraryActions(libraries, LibraryActionsOptions(kind))
  }

  /** A keys-only run is a permission check whatever the scope. */
  lemma KeysOnlyIgnoresScope(a: Libraries, b: Libraries)
    ensures CreateInitialActions(a, KeysOnly) == CreateInitialActions(b, KeysOnly) == [Action.LoadKeyPermissions]
  {
  }

  /** A group in a specific scope forces the global group refresh even for a normal run. */
  lemma GroupScopeShortCircuits()
    ensures CreateInitialActions(Specific([Group(5)]), Normal)
            == [Action.LoadKeyPermissions, Action.SyncGroupVersions]
  {
    assert Specific([Group(5)]).identifiers[0].IsGroupLibrary();
  }

  // ---------------------------------------------------------------------------
  // Download actions
  // ---------------------------------------------------------------------------

  /** The order in which the object types are synced: collections before the items filed in them. */
  const ObjectOrder: seq<SyncObject> := [Collection, Search, Item, Trash]

  /** The download actions for one library. */
  function CreateDownloadActions(libraryId: LibraryIdentifier, versions: Versions, kind: SyncKind): (r: seq<Action>)
    ensures r == [] <==> kind == KeysOnly
    ensures kind == CollectionsOnly ==> r == [Action.SyncVersions(libraryId, Collection, versions.collections, true)]
    ensures kind != KeysOnly && kind != CollectionsOnly
            ==> |r| == 7 && r[0] == Action.SyncSettings(libraryId, versions.settings)
                && forall o :: o != Settings ==> Action.SyncVersions(libraryId, o, VersionOf(versions, o), true) in r
    ensures forall i :: 0 <= i < |r| ==>
              IsDownloadAction(r[i]) && r[i].libraryId == libraryId && MatchesVersions(r[i], versions)
              && (r[i].SyncVersions? ==> r[i].checkRemote)
    // a full sync purges deletions before any object versions; the others after all of them
    ensures kind == Full
            ==> forall i :: 0 <= i < |r| ==> (IsDeletionAction(r[i]) ==> i < 3) && (r[i].SyncVersions? ==> 3 <= i)
    ensures kind == Normal || kind == IgnoreIndividualDelays || kind == PrioritizeDownloads
            ==> forall i :: 0 <= i < |r| ==> (IsDeletionAction(r[i]) ==> 5 <= i) && (r[i].SyncVersions? ==> i < 5)
    ensures kind == Full
            ==> forall k :: 0 <= k < 4 ==> r[3 + k].SyncVersions? && r[3 + k].objectS == ObjectOrder[k]
    ensures kind == Normal || kind == IgnoreIndividualDelays || kind == PrioritizeDownloads
            ==> forall k :: 0 <= k < 4 ==> r[1 + k].SyncVersions? && r[1 + k].objectS == ObjectOrder[k]
    ensures kind != KeysOnly && kind != CollectionsOnly ==> Action.SyncDeletions(libraryId, versions.deletions) in r
    ensures forall i :: 0 <= i < |r| && r[i].SyncDeletions? ==>
              i + 1 < |r| && r[i + 1] == Action.StoreDeletionVersion(libraryId, versions.deletions)
  {
    match kind
    case KeysOnly => []
    case CollectionsOnly => [Action.SyncVersions(libraryId, Collection, versions.collections, true)]
    case Full =>
      [ Action.SyncSettings(libraryId, versions.settings),
        Action.SyncDeletions(libraryId, versions.deletions),
        Action.StoreDeletionVersion(libraryId, versions.deletions),
        Action.SyncVersions(libraryId, Collection, versions.collections, true),
        Action.SyncVersions(libraryId, Search, versions.searches, true),
        Action.SyncVersions(libraryId, Item, versions.items, true),
        Action.SyncVersions(libraryId, Trash, versions.trash, true) ]
    case IgnoreIndividualDelays | Normal | PrioritizeDownloads =>
      [ Action.SyncSettings(libraryId, versions.settings),
        Action.SyncVersions(libraryId, Collection, versions.collections, true),
        Action.SyncVersions(libraryId, Search, versions.searches, true),
        Action.SyncVersions(libraryId, Item, versions.items, true),
        Action.SyncVersions(libraryId, Trash, versions.trash, true),
        Action.SyncDeletions(libraryId, versions.deletions),
        Action.StoreDeletionVersion(libraryId, versions.deletions) ]
  }

  // ---------------------------------------------------------------------------
  // Write actions
  // ---------------------------------------------------------------------------

  /** The actions `createUpdateActions` produces: every write batch, every
      delete batch, then the upload trigger. */
  function UpdateActions(updates: seq<WriteBatch>, deletions: seq<DeleteBatch>, data: LibraryData): (r: seq<Action>)
    ensures |r| == |updates| + |deletions| + 1
    ensures forall i :: 0 <= i < |updates| ==> r[i] == Action.SubmitWriteBatch(updates[i])
    ensures forall j :: 0 <= j < |deletions| ==> r[|updates| + j] == Action.SubmitDeleteBatch(deletions[j])
    ensures r[|r| - 1] == Action.CreateUploadActions(data.identifier, updates != [] || deletions != [], data.canEditFiles)
  {
    Map((b: WriteBatch) => Action.SubmitWriteBatch(b), updates)
    + Map((b: DeleteBatch) => Action.SubmitDeleteBatch(b), deletions)
    + [Action.CreateUploadActions(data.identifier, updates != [] || deletions != [], data.canEditFiles)]
  }

  /** `createUpdateActions`: appends one action per batch, then the upload trigger. */
  method CreateUpdateActions(updates: seq<WriteBatch>, deletions: seq<DeleteBatch>, data: LibraryData)
    returns (actions: seq<Action>)
    ensures actions == UpdateActions(updates, deletions, data)
  {
    actions := [];
    for i := 0 to |updates|
      invariant actions == Map((b: WriteBatch) => Action.SubmitWriteBatch(b), updates[..i])
    {
      actions := actions + [Action.SubmitWriteBatch(updates[i])];
    }
    assert updates[..|updates|] == updates;
    ghost var written := actions;
    for j := 0 to |deletions|
      invariant actions == written + Map((b: DeleteBatch) => Action.SubmitDeleteBatch(b), deletions[..j])
    {
      actions := actions + [Action.SubmitDeleteBatch(deletions[j])];
    }
    assert deletions[..|deletions|] == deletions;
    actions := actions + [Action.CreateUploadActions(data.identifier, updates != [] || deletions != [], data.canEditFiles)];
  }

  /** `createLibraryWriteActions`: the write actions of one library and their count. */
  function CreateLibraryWriteActions(data: LibraryData): (r: LibraryPlan)
    ensures data.identifier.Group? && !data.canEditMetadata
            ==> r == LibraryPlan([Action.ResolveGroupMetadataWritePermission(data.identifier.groupId, data.name)], 0)
    ensures !(data.identifier.Group? && !data.canEditMetadata)
            ==> r.actions == UpdateActions(data.updates, data.deletions, data)
                && r.writeCount == |data.updates| + |data.deletions|
    ensures r.writeCount >= 0 && |r.actions| >= 1
    ensures forall a :: a in r.actions ==> IsWriteAction(a)
  {
    match data.identifier
    case Custom =>
      var actions := UpdateActions(data.updates, data.deletions, data);
      LibraryPlan(actions, |actions| - 1)
    case Group(groupId) =>
      if !data.canEditMetadata then
        LibraryPlan([Action.ResolveGroupMetadataWritePermission(groupId, data.name)], 0)
      else
        var actions := UpdateActions(data.updates, data.deletions, data);
        LibraryPlan(actions, |actions| - 1)
  }

  /** A read-only group library yields one permission prompt, however much is pending. */
  lemma ReadOnlyGroupRefusesWrites(data: LibraryData, more: seq<WriteBatch>)
    requires data.identifier.Group? && !data.canEditMetadata
    ensures CreateLibraryWriteActions(data) == CreateLibraryWriteActions(data.(updates := data.updates + more))
    ensures |CreateLibraryWriteActions(data).actions| == 1 && CreateLibraryWriteActions(data).writeCount == 0
  {
  }

  // ---------------------------------------------------------------------------
  // Per-library planning
  // ---------------------------------------------------------------------------

  predicate HasPendingWrites(data: LibraryData)
  {
    data.updates != [] || data.deletions != [] || data.hasUpload
  }

  /** The optional trailing WebDAV deletion action. */
  function WebDavActions(data: LibraryData): seq<Action>
  {
    if data.hasWebDavDeletions then [Action.PerformWebDavDeletions(data.identifier)] else []
  }

  /** The plan for one library under one option. */
  function LibraryActions(data: LibraryData, option: CreateLibraryActionsOptions, kind: SyncKind): (r: LibraryPlan)
    ensures r.writeCount >= 0
  {
    match option
    case OnlyDownloads =>
      LibraryPlan(CreateDownloadActions(data.identifier, data.versions, kind), 0)
    case OnlyWrites =>
      var plan := if HasPendingWrites(data) then CreateLibraryWriteActions(data) else LibraryPlan([], 0);
      LibraryPlan(plan.actions + WebDavActions(data), plan.writeCount)
    case Automatic =>
      var plan := if HasPendingWrites(data) then CreateLibraryWriteActions(data)
                  else LibraryPlan(CreateDownloadActions(data.identifier, data.versions, kind), 0);
      LibraryPlan(plan.actions + WebDavActions(data), plan.writeCount)
  }

  /** A downloads-only pass plans the library's downloads, ignores pending
      writes and counts no writes. */
  lemma DownloadsIgnorePendingWrites(data: LibraryData, kind: SyncKind)
    ensures LibraryActions(data, OnlyDownloads, kind)
            == LibraryPlan(CreateDownloadActions(data.identifier, data.versions, kind), 0)
            == LibraryActions(data.(updates := [], deletions := [], hasUpload := false), OnlyDownloads, kind)
  {
  }

  /** With pending writes, the writes and write passes plan the library's
      write actions (and the WebDAV action) and never a download. */
  lemma WritesTakePrecedence(data: LibraryData, option: CreateLibraryActionsOptions, kind: SyncKind)
    requires option != OnlyDownloads && HasPendingWrites(data)
    ensures LibraryActions(data, option, kind)
            == LibraryPlan(CreateLibraryWriteActions(data).actions + WebDavActions(data),
                           CreateLibraryWriteActions(data).writeCount)
    ensures forall a :: a in LibraryActions(data, option, kind).actions ==> !IsDownloadAction(a)
  {
    var w := CreateLibraryWriteActions(data).actions;
    forall a | a in w + WebDavActions(data)
      ensures !IsDownloadAction(a)
    {
      if a in w {
        assert IsWriteAction(a);
      }
    }
  }

  /** Without pending writes the automatic pass downloads and the writes pass
      plans at most the WebDAV action; neither counts a write. */
  lemma NoPendingWrites(data: LibraryData, kind: SyncKind)
    requires !HasPendingWrites(data)
    ensures LibraryActions(data, Automatic, kind)
            == LibraryPlan(CreateDownloadActions(data.identifier, data.versions, kind) + WebDavActions(data), 0)
    ensures LibraryActions(data, OnlyWrites, kind) == LibraryPlan(WebDavActions(data), 0)
  {
  }

  /** Outside downloads-only, the WebDAV deletion action appears exactly once,
      as the last action, iff the library has WebDAV deletions. */
  lemma WebDavDeletionsLastAndOnce(data: LibraryData, option: CreateLibraryActionsOptions, kind: SyncKind)
    requires option != OnlyDownloads
    ensures multiset(LibraryActions(data, option, kind).actions)[Action.PerformWebDavDeletions(data.identifier)]
            == (if data.hasWebDavDeletions then 1 else 0)
    ensures data.hasWebDavDeletions
            ==> |LibraryActions(data, option, kind).actions| > 0
                && Last(LibraryActions(data, option, kind).actions) == Action.PerformWebDavDeletions(data.identifier)
  {
    var base: seq<Action>;
    if HasPendingWrites(data) {
      base := CreateLibraryWriteActions(data).actions;
      assert forall a :: a in base ==> IsWriteAction(a);
    } else if option == Automatic {
      base := CreateDownloadActions(data.identifier, data.versions, kind);
      assert forall a :: a in base ==> IsDownloadAction(a);
    } else {
      base := [];
    }
    WebDavAppendedOnce(base, LibraryActions(data, option, kind).actions, data);
  }

  /** Appending the optional WebDAV action to actions that hold none. */
  lemma WebDavAppendedOnce(base: seq<Action>, r: seq<Action>, data: LibraryData)
    requires forall a :: a in base ==> !a.PerformWebDavDeletions?
    requires r == base + WebDavActions(data)
    ensures multiset(r)[Action.PerformWebDavDeletions(data.identifier)] == (if data.hasWebDavDeletions then 1 else 0)
    ensures data.hasWebDavDeletions ==> |r| > 0 && Last(r) == Action.PerformWebDavDeletions(data.identifier)
  {
    var web := Action.PerformWebDavDeletions(data.identifier);
    assert web !in base;
    assert multiset(base)[web] == 0;
    assert multiset(base + WebDavActions(data)) == multiset(base) + multiset(WebDavActions(data));
  }

  /** The per-library `createLibraryActions`: builds the plan in a mutable list. */
  method CreateLibraryActionsFor(data: LibraryData, option: CreateLibraryActionsOptions, kind: SyncKind)
    returns (actions: seq<Action>, writeCount: int)
    ensures LibraryPlan(actions, writeCount) == LibraryActions(data, option, kind)
  {
    match option
    case OnlyDownloads =>
      actions := CreateDownloadActions(data.identifier, data.versions, kind);
      writeCount := 0;
    case OnlyWrites =>
      actions, writeCount := [], 0;
      if HasPendingWrites(data) {
        var plan := CreateLibraryWriteActions(data);
        actions, writeCount := plan.actions, plan.writeCount;
      }
      if data.hasWebDavDeletions {
        actions := actions + [Action.PerformWebDavDeletions(data.identifier)];
      }
    case Automatic =>
      writeCount := 0;
      if HasPendingWrites(data) {
        var plan := CreateLibraryWriteActions(data);
        actions, writeCount := plan.actions, plan.writeCount;
      } else {
        actions := CreateDownloadActions(data.identifier, data.versions, kind);
      }
      if data.hasWebDavDeletions {
        actions := actions + [Action.PerformWebDavDeletions(data.identifier)];
      }
  }

  // ---------------------------------------------------------------------------
  // Planning over many libraries
  // ---------------------------------------------------------------------------

  /** The per-library plans' actions concatenated in input order. */
  function AllLibraryActions(data: seq<LibraryData>, option: CreateLibraryActionsOptions, kind: SyncKind): seq<Action>
  {
    Flatten(Map((d: LibraryData) => LibraryActions(d, option, kind).actions, data))
  }

  /** The per-library write counts summed. */
  function TotalWriteCount(data: seq<LibraryData>, option: CreateLibraryActionsOptions, kind: SyncKind): int
  {
    Sum(Map((d: LibraryData) => LibraryActions(d, option, kind).writeCount, data))
  }

  /** Planning two runs of libraries plans each in turn: actions concatenate
      and write counts add up. */
  lemma AllLibraryActionsAppend(a: seq<LibraryData>, b: seq<LibraryData>,
                                option: CreateLibraryActionsOptions, kind: SyncKind)
    ensures AllLibraryActions(a + b, option, kind) == AllLibraryActions(a, option, kind) + AllLibraryActions(b, option, kind)
    ensures TotalWriteCount(a + b, option, kind) == TotalWriteCount(a, option, kind) + TotalWriteCount(b, option, kind)
  {
    var acts := (d: LibraryData) => LibraryActions(d, option, kind).actions;
    var counts := (d: LibraryData) => LibraryActions(d, option, kind).writeCount;
    MapAppend(acts, a, b);
    FlattenAppend(Map(acts, a), Map(acts, b));
    MapAppend(counts, a, b);
    SumAppend(Map(counts, a), Map(counts, b));
  }

  /** A single library's share is its own plan. */
  lemma AllLibraryActionsSingle(d: LibraryData, option: CreateLibraryActionsOptions, kind: SyncKind)
    ensures AllLibraryActions([d], option, kind) == LibraryActions(d, option, kind).actions
    ensures TotalWriteCount([d], option, kind) == LibraryActions(d, option, kind).writeCount
  {
    var acts := (d: LibraryData) => LibraryActions(d, option, kind).actions;
    assert Map(acts, [d]) == [acts(d)];
    assert Flatten([acts(d)]) == acts(d) + Flatten([]);
    var counts := (d: LibraryData) => LibraryActions(d, option, kind).writeCount;
    assert Map(counts, [d]) == [counts(d)];
    assert Sum([counts(d)]) == counts(d) + Sum([]);
  }

  /** One more library appends its plan: the step of the planning loop. */
  lemma AllLibraryActionsSnoc(data: seq<LibraryData>, i: nat, option: CreateLibraryActionsOptions, kind: SyncKind)
    requires i < |data|
    ensures AllLibraryActions(data[..i + 1], option, kind)
            == AllLibraryActions(data[..i], option, kind) + LibraryActions(data[i], option, kind).actions
    ensures TotalWriteCount(data[..i + 1], option, kind)
            == TotalWriteCount(data[..i], option, kind) + LibraryActions(data[i], option, kind).writeCount
  {
    assert data[..i + 1] == data[..i] + [data[i]];
    AllLibraryActionsAppend(data[..i], [data[i]], option, kind);
    AllLibraryActionsSingle(data[i], option, kind);
  }

  /** The summed write count is never negative. */
  lemma TotalWriteCountNonNegative(data: seq<LibraryData>, option: CreateLibraryActionsOptions, kind: SyncKind)
    ensures TotalWriteCount(data, option, kind) >= 0
  {
    SumNonNegative(Map((d: LibraryData) => LibraryActions(d, option, kind).writeCount, data));
  }

  /** A downloads-only pass counts no writes at all and plans only downloads. */
  lemma DownloadsOnlyCountNoWrites(data: seq<LibraryData>, kind: SyncKind)
    ensures TotalWriteCount(data, OnlyDownloads, kind) == 0
    ensures forall a :: a in AllLibraryActions(data, OnlyDownloads, kind) ==> IsDownloadAction(a)
  {
    var counts := (d: LibraryData) => LibraryActions(d, OnlyDownloads, kind).writeCount;
    SumZero(Map(counts, data));
    DownloadsOnlyPlanDownloads(data, kind);
  }

  lemma {:induction false} DownloadsOnlyPlanDownloads(data: seq<LibraryData>, kind: SyncKind)
    ensures forall a :: a in AllLibraryActions(data, OnlyDownloads, kind) ==> IsDownloadAction(a)
    decreases |data|
  {
    if data != [] {
      DownloadsOnlyPlanDownloads(data[1..], kind);
      AllLibraryActionsAppend([data[0]], data[1..], OnlyDownloads, kind);
      AllLibraryActionsSingle(data[0], OnlyDownloads, kind);
      assert [data[0]] + data[1..] == data;
    }
  }

  /** The multi-library `createLibraryActions`. */
  method CreateLibraryActions(data: seq<LibraryData>, option: CreateLibraryActionsOptions, kind: SyncKind)
    returns (actions: seq<Action>, index: Option<int>, writeCount: int)
    ensures actions == AllLibraryActions(data, option, kind)
    ensures writeCount == TotalWriteCount(data, option, kind) && writeCount >= 0
    ensures index == None <==> option == Automatic
    ensures index != None ==> index == Some(0)
  {
    writeCount := 0;
    actions := [];
    assert data[..0] == [];
    for i := 0 to |data|
      invariant actions == AllLibraryActions(data[..i], option, kind)
      invariant writeCount == TotalWriteCount(data[..i], option, kind)
    {
      var libraryActions, libraryWriteCount := CreateLibraryActionsFor(data[i], option, kind);
      writeCount := writeCount + libraryWriteCount;
      actions := actions + libraryActions;
      AllLibraryActionsSnoc(data, i, option, kind);
    }
    assert data[..|data|] == data;
    TotalWriteCountNonNegative(data, option, kind);
    index := if option == Automatic then None else Some(0);
  }

  // ---------------------------------------------------------------------------
  // Batching
  // ---------------------------------------------------------------------------

  const InitialBatchSize: nat := 10

  /** The batch size after one batch: doubled, but never above the cap. */
  function NextBatchSize(size: nat, maxBatchSize: nat): (r: nat)
    ensures size <= r <= Max(size, maxBatchSize)
    ensures size < maxBatchSize ==> r == Min(2 * size, maxBatchSize)
  {
    if size < maxBatchSize then Min(size * 2, maxBatchSize) else size
  }

  /** The key lists of the batches, from a first batch size `size` on. */
  function BatchKeys(keys: seq<string>, size: nat, maxBatchSize: nat): seq<seq<string>>
    requires size > 0
    decreases |keys|
  {
    if keys == [] then []
    else
      var n := Min(|keys|, size);
      [keys[..n]] + BatchKeys(keys[n..], NextBatchSize(size, maxBatchSize), maxBatchSize)
  }

  /** The size cap of the batch with index `i`. */
  function BatchSizeAt(size: nat, maxBatchSize: nat, i: nat): nat
    decreases i
  {
    if i == 0 then size else BatchSizeAt(NextBatchSize(size, maxBatchSize), maxBatchSize, i - 1)
  }

  function Pow2(i: nat): (r: nat)
    ensures r >= 1
  {
    if i == 0 then 1 else 2 * Pow2(i - 1)
  }

  /** Concatenating the batches gives back the keys, in order. */
  lemma {:induction false} BatchKeysFlatten(keys: seq<string>, size: nat, maxBatchSize: nat)
    requires size > 0
    ensures Flatten(BatchKeys(keys, size, maxBatchSize)) == keys
    decreases |keys|
  {
    if keys != [] {
      var n := Min(|keys|, size);
      var rest := BatchKeys(keys[n..], NextBatchSize(size, maxBatchSize), maxBatchSize);
      BatchKeysFlatten(keys[n..], NextBatchSize(size, maxBatchSize), maxBatchSize);
      assert ([keys[..n]] + rest)[1..] == rest;
      assert keys[..n] + keys[n..] == keys;
    }
  }

  /** No batch is empty; every batch but the last is full; the last is within its cap. */
  lemma {:induction false} BatchKeysSizes(keys: seq<string>, size: nat, maxBatchSize: nat)
    requires size > 0
    ensures keys == [] <==> BatchKeys(keys, size, maxBatchSize) == []
    ensures forall i :: 0 <= i < |BatchKeys(keys, size, maxBatchSize)| ==>
              0 < |BatchKeys(keys, size, maxBatchSize)[i]| <= BatchSizeAt(size, maxBatchSize, i)
    ensures forall i :: 0 <= i < |BatchKeys(keys, size, maxBatchSize)| - 1 ==>
              |BatchKeys(keys, size, maxBatchSize)[i]| == BatchSizeAt(size, maxBatchSize, i)
    decreases |keys|
  {
    if keys != [] {
      var n := Min(|keys|, size);
      var next := NextBatchSize(size, maxBatchSize);
      var rest := BatchKeys(keys[n..], next, maxBatchSize);
      BatchKeysSizes(keys[n..], next, maxBatchSize);
      var all := BatchKeys(keys, size, maxBatchSize);
      assert all == [keys[..n]] + rest;
      forall i | 0 < i < |all|
        ensures all[i] == rest[i - 1]
        ensures BatchSizeAt(size, maxBatchSize, i) == BatchSizeAt(next, maxBatchSize, i - 1)
      {
      }
      if |all| > 1 {
        assert rest != [];
        assert n == size;
      }
    }
  }

  /** Closed form of the cap: 10, 20, 40, ... bounded by the maximum (never below 10). */
  lemma {:induction false} BatchSizeAtClosedForm(maxBatchSize: nat, i: nat)
    ensures BatchSizeAt(InitialBatchSize, maxBatchSize, i) == Max(InitialBatchSize, Min(InitialBatchSize * Pow2(i), maxBatchSize))
  {
    BatchSizeFrom(InitialBatchSize, maxBatchSize, i);
  }

  lemma {:induction false} BatchSizeFrom(size: nat, maxBatchSize: nat, i: nat)
    requires size > 0
    ensures BatchSizeAt(size, maxBatchSize, i) == Max(size, Min(size * Pow2(i), maxBatchSize))
    decreases i
  {
    if i == 0 {
      assert size * Pow2(0) == size;
    } else {
      var next := NextBatchSize(size, maxBatchSize);
      BatchSizeFrom(next, maxBatchSize, i - 1);
      var p := Pow2(i - 1);
      var grown := size * Pow2(i);
      assert grown == 2 * (size * p) by { PowShift(i); DoubleMul(size, p); }
      assert size * p >= size by { MulMonotone(size, 1, p); }
      if maxBatchSize <= size {
        assert next == size;
      } else if 2 * size <= maxBatchSize {
        assert next == 2 * size;
        assert next * p == grown by { DoubleMul(size, p); }
      } else {
        assert next == maxBatchSize;
      }
    }
  }

  lemma DoubleMul(a: nat, b: nat)
    ensures (2 * a) * b == 2 * (a * b) && a * (2 * b) == 2 * (a * b)
  {
  }

  lemma PowShift(i: nat)
    requires i > 0
    ensures Pow2(i) == 2 * Pow2(i - 1)
  {
  }

  lemma MulMonotone(a: nat, b: nat, c: nat)
    requires b <= c
    ensures a * b <= a * c
  {
  }

  /** The cap sequence for the download maximum: 10, 20, 40, then 50 forever. */
  lemma DownloadBatchCaps(i: nat)
    ensures i == 0 ==> BatchSizeAt(InitialBatchSize, DownloadBatchMaxCount, i) == 10
    ensures i == 1 ==> BatchSizeAt(InitialBatchSize, DownloadBatchMaxCount, i) == 20
    ensures i == 2 ==> BatchSizeAt(InitialBatchSize, DownloadBatchMaxCount, i) == 40
    ensures i >= 3 ==> BatchSizeAt(InitialBatchSize, DownloadBatchMaxCount, i) == 50
  {
    BatchSizeAtClosedForm(DownloadBatchMaxCount, i);
    if i >= 3 {
      assert Pow2(i) >= 8 by { PowGrows(3, i); }
    }
  }

  lemma {:induction false} PowGrows(i: nat, j: nat)
    requires i <= j
    ensures Pow2(i) <= Pow2(j)
    decreases j - i
  {
    if i < j {
      PowGrows(i, j - 1);
    }
  }

  /** 135 keys are split into batches of 10, 20, 40, 50 and 15 keys. */
  lemma Batches135(keys: seq<string>)
    requires |keys| == 135
    ensures Map((ks: seq<string>) => |ks|, BatchKeys(keys, InitialBatchSize, DownloadBatchMaxCount)) == [10, 20, 40, 50, 15]
  {
    var m := DownloadBatchMaxCount;
    var b := BatchKeys(keys, 10, m);
    assert b == [keys[..10]] + BatchKeys(keys[10..], 20, m);
    assert keys[10..][20..] == keys[30..];
    assert BatchKeys(keys[10..], 20, m) == [keys[10..][..20]] + BatchKeys(keys[30..], 40, m);
    assert keys[30..][40..] == keys[70..];
    assert BatchKeys(keys[30..], 40, m) == [keys[30..][..40]] + BatchKeys(keys[70..], 50, m);
    assert keys[70..][50..] == keys[120..];
    assert BatchKeys(keys[70..], 50, m) == [keys[70..][..50]] + BatchKeys(keys[120..], 50, m);
    assert keys[120..][15..] == [];
    assert BatchKeys(keys[120..], 50, m) == [keys[120..][..15]] + BatchKeys([], 50, m);
    var sizes := Map((ks: seq<string>) => |ks|, b);
    assert |sizes| == 5;
  }

  /** One download batch per key list, all for the same library, type and version. */
  function WrapBatches(keyLists: seq<seq<string>>, libraryId: LibraryIdentifier, objectS: SyncObject, version: int): seq<DownloadBatch>
  {
    Map((ks: seq<string>) => DownloadBatch(libraryId, objectS, ks, version), keyLists)
  }

  lemma WrapBatchesAppend(a: seq<seq<string>>, b: seq<seq<string>>, libraryId: LibraryIdentifier, objectS: SyncObject, version: int)
    ensures WrapBatches(a + b, libraryId, objectS, version)
            == WrapBatches(a, libraryId, objectS, version) + WrapBatches(b, libraryId, objectS, version)
  {
    MapAppend((ks: seq<string>) => DownloadBatch(libraryId, objectS, ks, version), a, b);
  }

  /** The download batches for a key list. */
  function DownloadBatches(keys: seq<string>, libraryId: LibraryIdentifier, objectS: SyncObject, version: int): seq<DownloadBatch>
  {
    WrapBatches(BatchKeys(keys, InitialBatchSize, DownloadBatchMaxCount), libraryId, objectS, version)
  }

  /** Every download batch keeps the library, type and version it was given,
      is non-empty and within the download maximum, and together the batches
      hold exactly the keys, in order. */
  lemma DownloadBatchesCoverKeys(keys: seq<string>, libraryId: LibraryIdentifier, objectS: SyncObject, version: int)
    ensures Flatten(Map((b: DownloadBatch) => b.keys, DownloadBatches(keys, libraryId, objectS, version))) == keys
    ensures forall b :: b in DownloadBatches(keys, libraryId, objectS, version) ==>
              b.libraryId == libraryId && b.objectS == objectS && b.version == version
              && 0 < |b.keys| <= DownloadBatchMaxCount
    ensures DownloadBatches(keys, libraryId, objectS, version) == [] <==> keys == []
  {
    var ks := BatchKeys(keys, InitialBatchSize, DownloadBatchMaxCount);
    var batches := DownloadBatches(keys, libraryId, objectS, version);
    BatchKeysFlatten(keys, InitialBatchSize, DownloadBatchMaxCount);
    BatchKeysSizes(keys, InitialBatchSize, DownloadBatchMaxCount);
    assert Map((b: DownloadBatch) => b.keys, batches) == ks;
    forall b | b in batches
      ensures b.libraryId == libraryId && b.objectS == objectS && b.version == version
      ensures 0 < |b.keys| <= DownloadBatchMaxCount
    {
      var i :| 0 <= i < |batches| && batches[i] == b;
      BatchSizeBounded(DownloadBatchMaxCount, i);
    }
  }

  /** One turn of the batching loop: the batch starting at `lowerBound` is the
      next one of the specification, and the rest starts after it. */
  lemma BatchKeysStep(keys: seq<string>, done: seq<seq<string>>, lowerBound: nat, size: nat, maxBatchSize: nat)
    requires lowerBound < |keys| && size > 0
    requires done + BatchKeys(keys[lowerBound..], size, maxBatchSize) == BatchKeys(keys, InitialBatchSize, maxBatchSize)
    ensures (done + [keys[lowerBound..Min(|keys|, lowerBound + size)]])
            + BatchKeys(keys[Min(|keys|, lowerBound + size)..], NextBatchSize(size, maxBatchSize), maxBatchSize)
            == BatchKeys(keys, InitialBatchSize, maxBatchSize)
  {
    var rest := keys[lowerBound..];
    var n := Min(|rest|, size);
    assert rest[..n] == keys[lowerBound..Min(|keys|, lowerBound + size)];
    assert rest[n..] == keys[Min(|keys|, lowerBound + size)..];
    var later := BatchKeys(keys[Min(|keys|, lowerBound + size)..], NextBatchSize(size, maxBatchSize), maxBatchSize);
    assert done + ([rest[..n]] + later) == (done + [rest[..n]]) + later;
  }

  /** `createBatchObjects`: slices the keys with a doubling, capped batch size. */
  method CreateBatchObjects(keys: seq<string>, libraryId: LibraryIdentifier, objectS: SyncObject, version: int)
    returns (batches: seq<DownloadBatch>)
    ensures batches == DownloadBatches(keys, libraryId, objectS, version)
    ensures Flatten(Map((b: DownloadBatch) => b.keys, batches)) == keys
    ensures forall b :: b in batches ==>
              b.libraryId == libraryId && b.objectS == objectS && b.version == version
              && 0 < |b.keys| <= DownloadBatchMaxCount
  {
    var maxBatchSize := DownloadBatchMaxCount;
    var batchSize := InitialBatchSize;
    var lowerBound := 0;
    batches := [];
    ghost var done: seq<seq<string>> := [];
    while lowerBound < |keys|
      invariant 0 <= lowerBound && 0 < batchSize
      invariant batches == WrapBatches(done, libraryId, objectS, version)
      invariant done + BatchKeys(keys[Min(lowerBound, |keys|)..], batchSize, maxBatchSize)
                == BatchKeys(keys, InitialBatchSize, maxBatchSize)
      decreases |keys| - lowerBound
    {
      var upperBound := Min(|keys| - lowerBound, batchSize) + lowerBound;
      var batchKeys := keys[lowerBound..upperBound];
      BatchKeysStep(keys, done, lowerBound, batchSize, maxBatchSize);
      WrapBatchesAppend(done, [batchKeys], libraryId, objectS, version);
      assert WrapBatches([batchKeys], libraryId, objectS, version) == [DownloadBatch(libraryId, objectS, batchKeys, version)];
      batches := batches + [DownloadBatch(libraryId, objectS, batchKeys, version)];
      done := done + [batchKeys];

      lowerBound := lowerBound + batchSize;
      if batchSize < maxBatchSize {
        batchSize := Min(batchSize * 2, maxBatchSize);
      }
      assert Min(lowerBound, |keys|) == upperBound;
    }
    assert keys[Min(lowerBound, |keys|)..] == [];
    assert done == BatchKeys(keys, InitialBatchSize, maxBatchSize);
    DownloadBatchesCoverKeys(keys, libraryId, objectS, version);
  }

  /** No cap exceeds the download maximum. */
  lemma {:induction false} BatchSizeBounded(maxBatchSize: nat, i: nat)
    requires maxBatchSize >= InitialBatchSize
    ensures InitialBatchSize <= BatchSizeAt(InitialBatchSize, maxBatchSize, i) <= maxBatchSize
  {
    BatchSizeAtClosedForm(maxBatchSize, i);
    PowGrows(0, i);
  }

  /** `createBatchedObjectActions`: one action syncing all batches, then the
      optional version store; only the version store when there are no keys. */
  method CreateBatchedObjectActions(libraryId: LibraryIdentifier, objectS: SyncObject, keys: seq<string>,
                                    version: int, shouldStoreVersion: bool)
    returns (actions: seq<Action>)
    ensures keys == [] ==>
              actions == (if shouldStoreVersion then [Action.StoreVersion(version, libraryId, objectS)] else [])
    ensures keys != [] ==>
              |actions| == (if shouldStoreVersion then 2 else 1)
              && actions[0] == Action.SyncBatchesToDb(DownloadBatches(keys, libraryId, objectS, version))
              && DownloadBatches(keys, libraryId, objectS, version) != []
              && (shouldStoreVersion ==> actions[1] == Action.StoreVersion(version, libraryId, objectS))
  {
    var batches := CreateBatchObjects(keys, libraryId, objectS, version);
    BatchKeysSizes(keys, InitialBatchSize, DownloadBatchMaxCount);
    if batches == [] {
      actions := if shouldStoreVersion then [Action.StoreVersion(version, libraryId, objectS)] else [];
      return;
    }
    actions := [Action.SyncBatchesToDb(batches)];
    if shouldStoreVersion {
      actions := actions + [Action.StoreVersion(version, libraryId, objectS)];
    }
  }

  // ---------------------------------------------------------------------------
  // Group actions
  // ---------------------------------------------------------------------------

  /** The group ids of a specific scope, in scope order, that need a refresh. */
  function ScopedGroupIds(ids: seq<LibraryIdentifier>, updateIds: seq<int>): seq<int>
  {
    if ids == [] then []
    else
      var previous := ScopedGroupIds(ids[..|ids| - 1], updateIds);
      var last := ids[|ids| - 1];
      if last.Group? && last.groupId in updateIds then previous + [last.groupId] else previous
  }

  /** The groups to refresh: all updated ones, or those named by the scope. */
  function GroupIdsToSync(updateIds: seq<int>, libraries: Libraries): seq<int>
  {
    match libraries
    case All => updateIds
    case Specific(ids) => ScopedGroupIds(ids, updateIds)
  }

  /** A refreshed group is updated and, for a specific scope, named in it; and
      every updated group the scope names is refreshed. */
  lemma {:induction false} ScopedGroupIdsExact(ids: seq<LibraryIdentifier>, updateIds: seq<int>, g: int)
    ensures g in ScopedGroupIds(ids, updateIds) <==> g in updateIds && Group(g) in ids
    decreases |ids|
  {
    if ids != [] {
      var init := ids[..|ids| - 1];
      ScopedGroupIdsExact(init, updateIds, g);
      assert ids == init + [ids[|ids| - 1]];
      assert Group(g) in ids <==> Group(g) in init || Group(g) == ids[|ids| - 1];
    }
  }

  /** Custom libraries never yield a group refresh, and nothing is refreshed twice
      unless the scope names it twice. */
  lemma {:induction false} ScopedGroupIdsLength(ids: seq<LibraryIdentifier>, updateIds: seq<int>)
    ensures |ScopedGroupIds(ids, updateIds)| <= |ids|
    ensures (forall i :: 0 <= i < |ids| ==> ids[i].Custom?) ==> ScopedGroupIds(ids, updateIds) == []
    decreases |ids|
  {
    if ids != [] {
      var init := ids[..|ids| - 1];
      ScopedGroupIdsLength(init, updateIds);
      if forall i :: 0 <= i < |ids| ==> ids[i].Custom? {
        assert forall i :: 0 <= i < |init| ==> init[i] == ids[i];
      }
    }
  }

  function ResolveDeletedGroupActions(deleteGroups: seq<(int, string)>): seq<Action>
  {
    Map((g: (int, string)) => Action.ResolveDeletedGroup(g.0, g.1), deleteGroups)
  }

  function SyncGroupToDbActions(ids: seq<int>): seq<Action>
  {
    Map((id: int) => Action.SyncGroupToDb(id), ids)
  }

  /** `createGroupActions`: deleted groups, then group refreshes, then the
      deferred library passes of the sync kind. */
  method CreateGroupActions(updateIds: seq<int>, deleteGroups: seq<(int, string)>, kind: SyncKind, libraries: Libraries)
    returns (actions: seq<Action>)
    ensures actions == ResolveDeletedGroupActions(deleteGroups)
                       + SyncGroupToDbActions(GroupIdsToSync(updateIds, libraries))
                       + DeferredLibraryActions(libraries, LibraryActionsOptions(kind))
    ensures forall i :: 0 <= i < |deleteGroups| ==>
              actions[i] == Action.ResolveDeletedGroup(deleteGroups[i].0, deleteGroups[i].1)
    ensures forall a :: a in actions && a.SyncGroupToDb? ==> a.groupId in updateIds
    ensures libraries.Specific? ==>
              forall a :: a in actions && a.SyncGroupToDb? ==> Group(a.groupId) in libraries.identifiers
    ensures libraries.Specific? ==>
              forall g :: g in updateIds && Group(g) in libraries.identifiers ==> Action.SyncGroupToDb(g) in actions
  {
    var idsToSync: seq<int>;
    match libraries {
      case All =>
        idsToSync := updateIds;
      case Specific(libraryIds) =>
        idsToSync := [];
        for i := 0 to |libraryIds|
          invariant idsToSync == ScopedGroupIds(libraryIds[..i], updateIds)
        {
          assert libraryIds[..i + 1][..i] == libraryIds[..i];
          match libraryIds[i] {
            case Group(groupId) =>
              if groupId in updateIds {
                idsToSync := idsToSync + [groupId];
              }
            case Custom =>
          }
        }
        assert libraryIds[..|libraryIds|] == libraryIds;
    }
    var deleted := ResolveDeletedGroupActions(deleteGroups);
    var synced := SyncGroupToDbActions(idsToSync);
    var deferred := DeferredLibraryActions(libraries, LibraryActionsOptions(kind));
    actions := deleted + synced + deferred;

    assert forall a :: a in deleted ==> a.ResolveDeletedGroup?;
    assert forall a :: a in deferred ==> a.CreateLibraryActions?;
    forall a | a in actions && a.SyncGroupToDb?
      ensures a.groupId in idsToSync
    {
      assert a in synced;
      var i :| 0 <= i < |synced| && synced[i] == a;
    }
    if libraries.Specific? {
      forall g | g in idsToSync
        ensures g in updateIds && Group(g) in libraries.identifiers
      {
        ScopedGroupIdsExact(libraries.identifiers, updateIds, g);
      }
      forall g | g in updateIds && Group(g) in libraries.identifiers
        ensures Action.SyncGroupToDb(g) in actions
      {
        ScopedGroupIdsExact(libraries.identifiers, updateIds, g);
        var i :| 0 <= i < |idsToSync| && idsToSync[i] == g;
        assert actions[|deleted| + i] == synced[i];
      }
    }
  }
}
