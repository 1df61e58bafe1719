/**
 * The ledger of internal/storage/storage.go: one YAML file mapping each network to the ID of
 * the last proposal processed for it. The file is abstract state: missing, unreadable (a
 * read or YAML error other than "does not exist"), or a document whose `networks` map may be
 * nil. A failure to save is injected through `saveFault`, fixed for the service's lifetime.
 */
module Storage {
  import opened Wrappers

  /** The YAML document; `networks` is None when the map is nil (no `networks` key). */
  datatype Data = Data(networks: Option<map<string, string>>)

  datatype FileState = Missing | Unreadable(cause: string) | Present(data: Data)

  datatype LoadError = NotExist | LoadFailed(cause: string)

  /**
   * How saveYamlFile fails. A marshal error, or os.WriteFile failing to open the file, leaves
   * the file as it was. os.WriteFile truncates the file when it opens it, so a write (or close)
   * that fails after that leaves whatever reached the disk, `left`: an empty file reads as a
   * document with a nil map, a partial one may not parse at all.
   */
  datatype SaveFault = NothingWritten(cause: string) | WriteFailed(cause: string, left: FileState)

  /** The file a failed save leaves behind. */
  function AfterFault(f: FileState, fault: SaveFault): FileState
  {
    match fault
    case NothingWritten(_) => f
    case WriteFailed(_, left) => left
  }

  /** A store that gets as far as a failed write, so that the file no longer is what it was. */
  predicate Clobbers(f: FileState, saveFault: Option<SaveFault>)
  {
    !f.Unreadable? && saveFault.Some? && saveFault.value.WriteFailed?
  }

  function LoadYamlFile(f: FileState): Result<Data, LoadError>
  {
    match f
    case Missing => Failure(NotExist)
    case Unreadable(cause) => Failure(LoadFailed(cause))
    case Present(data) => Success(data)
  }

  /** GetLastProcessedProposalID on a given file: the stored ID, "" when there is none, or the load error. */
  function Lookup(f: FileState, network: string): Result<string, string>
  {
    match LoadYamlFile(f)
    case Failure(NotExist) => Success("")
    case Failure(LoadFailed(cause)) => Failure(cause)
    case Success(data) =>
      if data.networks.Some? && network in data.networks.value then Success(data.networks.value[network])
      else Success("")
  }

  /** StoreLastProcessedProposalID on a given file: the file afterwards and the error returned. */
  function StoreOutcome(f: FileState, saveFault: Option<SaveFault>, network: string, id: string): (FileState, Option<string>)
  {
    match LoadYamlFile(f)
    case Failure(LoadFailed(cause)) => (f, Some(cause))
    case _ =>
      var networks := if f.Present? && f.data.networks.Some? then f.data.networks.value else map[];
      if saveFault.Some? then (AfterFault(f, saveFault.value), Some(saveFault.value.cause))
      else (Present(Data(Some(networks[network := id]))), None)
  }

  class StorageService {
    var file: FileState
    var saveFault: Option<SaveFault>

    constructor (file: FileState, saveFault: Option<SaveFault>)
      ensures this.file == file && this.saveFault == saveFault
    {
      this.file := file;
      this.saveFault := saveFault;
    }

    /** The lookup reads the file afresh on every call. */
    function GetLastProcessedProposalID(network: string): Result<string, string>
      reads this
    {
      Lookup(file, network)
    }

    /** Read-modify-write of the whole file. */
    method StoreLastProcessedProposalID(network: string, proposalID: string) returns (err: Option<string>)
      modifies this`file
      ensures (file, err) == StoreOutcome(old(file), saveFault, network, proposalID)
    {
      var loaded := LoadYamlFile(file);
      var data: Data;
      if loaded.Failure? {
        if loaded.error.NotExist? {
          data := Data(Some(map[]));
        } else {
          return Some(loaded.error.cause);
        }
      } else {
        data := loaded.value;
      }
      if data.networks.None? {
        data := Data(Some(map[]));
      }
      data := Data(Some(data.networks.value[network := proposalID]));
      err := SaveYamlFile(data);
    }

    method SaveYamlFile(data: Data) returns (err: Option<string>)
      modifies this`file
      ensures saveFault.Some? ==> file == AfterFault(old(file), saveFault.value) && err == Some(saveFault.value.cause)
      ensures saveFault.None? ==> file == Present(data) && err == None
    {
      if saveFault.Some? {
        file := AfterFault(file, saveFault.value);
        return Some(saveFault.value.cause);
      }
      file := Present(data);
      return None;
    }
  }

  /** A missing file is not an error: there is simply no ID yet. */
  lemma GetOnMissingFile(network: string)
    ensures Lookup(Missing, network) == Success("")
  {
  }

  /** A network with no entry reads as ""; any other load failure is returned as an error. */
  lemma GetWithoutEntry(f: FileState, network: string)
    requires f.Present? && (f.data.networks.None? || network !in f.data.networks.value)
    ensures Lookup(f, network) == Success("")
  {
  }

  lemma GetOnUnreadableFile(cause: string, network: string)
    ensures Lookup(Unreadable(cause), network) == Failure(cause)
  {
  }

  /** A store succeeds exactly when the file can be loaded (or is missing) and the save goes through. */
  lemma StoreSucceedsIff(f: FileState, saveFault: Option<SaveFault>, network: string, id: string)
    ensures StoreOutcome(f, saveFault, network, id).1.None? <==> !f.Unreadable? && saveFault.None?
  {
  }

  /** After a successful store the network reads back the stored ID. */
  lemma GetAfterStore(f: FileState, saveFault: Option<SaveFault>, network: string, id: string)
    requires StoreOutcome(f, saveFault, network, id).1.None?
    ensures Lookup(StoreOutcome(f, saveFault, network, id).0, network) == Success(id)
  {
  }

  /**
   * A store, failed or not, leaves what every other network reads unchanged, unless a failed
   * write clobbers the file: then every network reads what the write left.
   */
  lemma StoreKeepsOtherNetworks(f: FileState, saveFault: Option<SaveFault>, network: string, id: string, other: string)
    requires other != network
    ensures !Clobbers(f, saveFault) ==> Lookup(StoreOutcome(f, saveFault, network, id).0, other) == Lookup(f, other)
    ensures Clobbers(f, saveFault) ==> Lookup(StoreOutcome(f, saveFault, network, id).0, other) == Lookup(saveFault.value.left, other)
  {
  }

  /**
   * A failed store leaves the file exactly as it was, except when it fails in the write
   * itself, after os.WriteFile has truncated the file.
   */
  lemma FailedStoreWritesNothing(f: FileState, saveFault: Option<SaveFault>, network: string, id: string)
    requires StoreOutcome(f, saveFault, network, id).1.Some?
    ensures !Clobbers(f, saveFault) ==> StoreOutcome(f, saveFault, network, id).0 == f
    ensures Clobbers(f, saveFault) ==> StoreOutcome(f, saveFault, network, id).0 == saveFault.value.left
  {
  }

  /**
   * A write that fails after truncating the file to nothing forgets every network: the empty
   * file reads as a nil map, so every lookup returns "" without error.
   */
  lemma TruncatedWriteForgetsAll(f: FileState, cause: string, network: string, id: string, other: string)
    requires !f.Unreadable?
    ensures var stored := StoreOutcome(f, Some(WriteFailed(cause, Present(Data(None)))), network, id);
      stored.1 == Some(cause) && Lookup(stored.0, other) == Success("")
  {
  }

  /** Overwrite is unconditional: the outcome does not depend on the ID stored before, smaller or not. */
  lemma StoreOverwrites(m: map<string, string>, saveFault: Option<SaveFault>, network: string, id: string, previous: string)
    ensures StoreOutcome(Present(Data(Some(m[network := previous]))), saveFault, network, id).1
      == (if saveFault.Some? then Some(saveFault.value.cause) else None)
    ensures saveFault.None? ==>
      StoreOutcome(Present(Data(Some(m[network := previous]))), saveFault, network, id).0 == Present(Data(Some(m[network := id])))
  {
    assert m[network := previous][network := id] == m[network := id];
  }

  /** A missing file and a file with a nil map both start from an empty map. */
  lemma StoreStartsFromEmptyMap(saveFault: Option<SaveFault>, network: string, id: string)
    requires saveFault.None?
    ensures StoreOutcome(Missing, saveFault, network, id) == (Present(Data(Some(map[network := id]))), None)
    ensures StoreOutcome(Present(Data(None)), saveFault, network, id) == (Present(Data(Some(map[network := id]))), None)
  {
  }
}
