/** An item attachment as the item list shows it: either a file, whose
    download state is a `FileLocation`, or a plain link. */
module Attachments {
  import opened Wrappers
  import SyncTypes

  /** Where the attachment's file is, relative to this device. */
  datatype FileLocation = Local | LocalAndChangedRemotely | Remote | RemoteMissing

  datatype FileLinkType = ImportedUrl | ImportedFile | EmbeddedImage | LinkedFile

  datatype Kind =
    | File(filename: string, contentType: string, location: FileLocation, linkType: FileLinkType)
    | Url(url: string)

  /** `java.util.Date`, kept as an opaque instant. */
  datatype Date = Date(millis: int)

  datatype Attachment = Attachment(
    kind: Kind,
    title: string,
    key: string,
    libraryId: SyncTypes.LibraryIdentifier,
    url: Option<string>,
    dateAdded: Date)

  /** The attachment's identity. */
  function Id(a: Attachment): (r: string)
    ensures r == a.key
  {
    a.key
  }

  /** Whether the attachment can be opened as a link. */
  function HasUrl(a: Attachment): (r: bool)
    ensures a.kind.Url? ==> r
    ensures a.kind.File? ==> (r <==> a.url.Some?)
  {
    match a.kind
    case Url(_) => true
    case File(_, _, _, _) => a.url.Some?
  }

  /** The file's location; links have none. */
  function Location(a: Attachment): (r: Option<FileLocation>)
    ensures r.Some? <==> a.kind.File?
    ensures a.kind.File? ==> r.value == a.kind.location
  {
    match a.kind
    case Url(_) => None
    case File(_, _, location, _) => Some(location)
  }

  /** `b` is `a` with its file moved to `location`, everything else kept. */
  predicate Relocates(a: Attachment, b: Attachment, location: FileLocation)
  {
    a.kind.File? && b.kind.File?
    && b.kind.location == location
    && b.kind.filename == a.kind.filename && b.kind.contentType == a.kind.contentType
    && b.kind.linkType == a.kind.linkType
    && b.title == a.title && b.url == a.url && b.dateAdded == a.dateAdded
    && b.key == a.key && b.libraryId == a.libraryId
  }

  function WithLocation(a: Attachment, location: FileLocation): Attachment
    requires a.kind.File?
  {
    Attachment(File(a.kind.filename, a.kind.contentType, location, a.kind.linkType),
               a.title, a.key, a.libraryId, a.url, a.dateAdded)
  }

  /** `changed(location, condition)`: a relocated copy when the attachment is a
      file whose current location satisfies `condition`, otherwise nothing. */
  function ChangedIf(a: Attachment, location: FileLocation, condition: FileLocation -> bool): (r: Option<Attachment>)
    ensures r.Some? <==> a.kind.File? && condition(a.kind.location)
    ensures r.Some? ==> Relocates(a, r.value, location) && Location(r.value) == Some(location)
  {
    if a.kind.File? && condition(a.kind.location) then Some(WithLocation(a, location)) else None
  }

  /** `changed(location)`: a relocated copy when the attachment is a file that
      is not already at `location`, otherwise nothing. */
  function Changed(a: Attachment, location: FileLocation): (r: Option<Attachment>)
    ensures r.Some? <==> Location(a).Some? && Location(a) != Some(location)
    ensures r.Some? ==> Relocates(a, r.value, location) && Location(r.value) == Some(location)
    ensures r == ChangedIf(a, location, (current: FileLocation) => current != location)
  {
    if a.kind.File? && a.kind.location != location then Some(WithLocation(a, location)) else None
  }

  /** Relocating twice to the same place changes nothing the second time. */
  lemma ChangedIdempotent(a: Attachment, location: FileLocation)
    ensures Changed(a, location).Some? ==> Changed(Changed(a, location).value, location) == None
  {
  }

  /** Relocation keeps the attachment's identity and whether it has a link. */
  lemma ChangedKeepsIdentity(a: Attachment, b: Attachment, location: FileLocation)
    requires Changed(a, location) == Some(b)
    ensures Id(b) == Id(a) && HasUrl(b) == HasUrl(a)
  {
  }
}
