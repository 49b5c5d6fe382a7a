/** The provider's account as the driver sees it through a session: volumes, snapshots,
    and the calls on them. Every call takes its own fault. */
module Cloud {
  import opened Common
  import opened Provider
  import opened Capacity
  import opened Inventory

  /** `capacity` counts GiB. */
  datatype VolumeBody = VolumeBody(
    capacity: Option<int>, iops: string, az: string, tags: seq<string>, crn: string, snapshotID: string)

  datatype SnapshotBody = SnapshotBody(volumeID: string, crn: string, size: int, ready: bool)

  type VolumeEntry = Entry<VolumeBody>
  type SnapshotEntry = Entry<SnapshotBody>

  /** `creates` and `deletes` count the requests that reached the provider. A provider may
      or may not insist on unique names. */
  datatype Account = Account(
    volumes: seq<VolumeEntry>,
    snapshots: seq<SnapshotEntry>,
    rejectsDuplicates: bool,
    creates: nat,
    deletes: nat)

  const EMPTY_ACCOUNT := Account([], [], false, 0, 0)

  /** How a lookup goes: truthfully, or with an error of some kind whatever is there. */
  datatype Lookup = Accurate | Misreports(kind: ErrorType)

  datatype Reply<T> = Reply(account: Account, result: Result<T, ErrorType>)

  function WithFault<T>(before: Account, done: Reply<T>, fault: CallFault): Reply<T> {
    match fault
    case Fine => done
    case Fails(kind) => Reply(before, Err(kind))
    case FailsAfter(kind) => Reply(done.account, Err(kind))
  }

  function GetById<T>(entries: seq<Entry<T>>, id: string, lookup: Lookup): Result<Entry<T>, ErrorType> {
    match lookup
    case Misreports(kind) => Err(kind)
    case Accurate =>
      match ById(entries, id)
      case Some(k) => Ok(entries[k])
      case None => Err(RetrivalFailed)
  }

  function GetByName<T>(entries: seq<Entry<T>>, name: string, lookup: Lookup): Result<Entry<T>, ErrorType> {
    match lookup
    case Misreports(kind) => Err(kind)
    case Accurate =>
      match ByName(entries, name)
      case Some(k) => Ok(entries[k])
      case None => Err(RetrivalFailed)
  }

  /** An id that is empty or taken cannot be issued; a taken name is refused by providers
      that insist on unique names. */
  predicate Issuable<T>(entries: seq<Entry<T>>, e: Entry<T>, rejectsDuplicates: bool) {
    && e.id != "" && ById(entries, e.id).None?
    && (rejectsDuplicates ==> ByName(entries, e.name).None?)
  }

  function CreateVolume(a: Account, e: VolumeEntry, fault: CallFault): Reply<VolumeEntry> {
    var asked := a.(creates := a.creates + 1);
    var done :=
      if Issuable(a.volumes, e, a.rejectsDuplicates) then Reply(asked.(volumes := a.volumes + [e]), Ok(e))
      else Reply(asked, Err(OtherType));
    WithFault(asked, done, fault)
  }

  function DeleteVolume(a: Account, id: string, fault: CallFault): Reply<()> {
    var asked := a.(deletes := a.deletes + 1);
    var done :=
      match ById(a.volumes, id)
      case Some(k) => Reply(asked.(volumes := Without(a.volumes, k)), Ok(()))
      case None => Reply(asked, Err(OtherType));
    WithFault(asked, done, fault)
  }

  /** The comparison takes GiB for bytes, as the library does; the provider grants a size
      in GiB, rounded up, and never a smaller one. */
  function ExpandVolume(a: Account, id: string, bytes: int64, fault: CallFault): Reply<()> {
    match ById(a.volumes, id)
    case None => Reply(a, Err(RetrivalFailed))
    case Some(k) =>
      var v := a.volumes[k];
      var gib := TruncatedDiv(Wrap64(bytes + GIB - 1), GIB);
      var done :=
        if v.body.capacity.Some? && v.body.capacity.value >= bytes then Reply(a, Ok(()))
        else if v.body.capacity.Some? && v.body.capacity.value > gib then Reply(a, Err(OtherType))
        else Reply(a.(volumes := a.volumes[k := v.(body := v.body.(capacity := Some(gib)))]), Ok(()));
      WithFault(a, done, fault)
  }

  function CreateSnapshot(a: Account, e: SnapshotEntry, fault: CallFault): Reply<SnapshotEntry> {
    var asked := a.(creates := a.creates + 1);
    var done :=
      if Issuable(a.snapshots, e, a.rejectsDuplicates) then Reply(asked.(snapshots := a.snapshots + [e]), Ok(e))
      else Reply(asked, Err(OtherType));
    WithFault(asked, done, fault)
  }

  function DeleteSnapshot(a: Account, id: string, fault: CallFault): Reply<()> {
    var asked := a.(deletes := a.deletes + 1);
    var done :=
      match ById(a.snapshots, id)
      case Some(k) => Reply(asked.(snapshots := Without(a.snapshots, k)), Ok(()))
      case None => Reply(asked, Err(RetrivalFailed));
    WithFault(asked, done, fault)
  }
}
