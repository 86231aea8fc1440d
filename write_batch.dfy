/** A pending upload of changed objects of one type in one library. */
module WriteBatches {
  import opened SyncTypes

  /** Values of the JSON parameters are not interpreted by the planner. */
  type ParameterValue = string

  datatype WriteBatch = WriteBatch(
    libraryId: LibraryIdentifier,
    objectS: SyncObject,
    version: int,
    parameters: seq<map<string, ParameterValue>>,
    changeUuids: map<string, seq<string>>)

  /** Largest number of objects one write request carries. */
  const MaxCount: nat := 50

  /** The same batch re-stamped with another version. */
  function Copy(b: WriteBatch, version: int): (r: WriteBatch)
    ensures r.version == version
    ensures r.libraryId == b.libraryId && r.objectS == b.objectS
    ensures r.parameters == b.parameters && r.changeUuids == b.changeUuids
  {
    WriteBatch(b.libraryId, b.objectS, version, b.parameters, b.changeUuids)
  }

  /** Re-stamping with the batch's own version changes nothing. */
  lemma CopyOwnVersion(b: WriteBatch)
    ensures Copy(b, b.version) == b
  {
  }

  /** Of two successive re-stampings only the last one is visible. */
  lemma CopyLastVersionWins(b: WriteBatch, first: int, second: int)
    ensures Copy(Copy(b, first), second) == Copy(b, second)
  {
  }
}
