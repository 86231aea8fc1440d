/** What the item list shows beside an item: an attachment, a DOI or a URL. */
module ItemAccessories {
  import opened Wrappers
  import Attachments

  datatype ItemAccessory =
    | Attachment(attachment: Attachments.Attachment)
    | Doi(doi: string)
    | Url(url: string)

  /** The attachment the accessory shows, if it shows one. */
  function AttachmentGet(accessory: ItemAccessory): (r: Option<Attachments.Attachment>)
    ensures r.Some? <==> accessory.Attachment?
    ensures accessory.Attachment? ==> r.value == accessory.attachment
  {
    match accessory
    case Attachment(attachment) => Some(attachment)
    case Doi(_) => None
    case Url(_) => None
  }

  /** Wrapping an attachment and projecting it back is the identity, and only
      a wrapped attachment projects to it. */
  lemma AttachmentGetInverts(accessory: ItemAccessory, a: Attachments.Attachment)
    ensures AttachmentGet(Attachment(a)) == Some(a)
    ensures AttachmentGet(accessory) == Some(a) <==> accessory == Attachment(a)
  {
  }
}
