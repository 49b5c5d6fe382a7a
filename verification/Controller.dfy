/** The controller service's requests on volumes and snapshots, and the server object that
    serves them. The functions say what each request does to the account and answers; the
    methods are the handlers. */
module Controller {
  import opened Common
  import opened Provider
  import opened Capacity
  import opened Inventory
  import opened SnapshotHandle
  import opened VolumeParameters
  import Cloud
  import A = Attachments

  type Account = Cloud.Account

  // ---- Requests, environment, answers ---------------------------------------------------

  /** `extraLabels` is what the command line gives every volume as tags. */
  datatype Config = Config(
    clusterID: string, region: string, resourceGroup: string, accountID: string, extraLabels: string)

  datatype Session = Opened | Unreachable | TimedOut | Denied

  /** What the provider will do during one request, and what it will issue if asked to
      create something. */
  datatype Env = Env(session: Session, lookup: Cloud.Lookup, act: CallFault, issued: Issue)

  datatype Issue = Issue(
    id: string, crn: string, iops: string, keepsTags: bool, sourceID: string, size: int, ready: bool)

  datatype ContentSource = NoSource | FromSnapshot(id: string) | NilSnapshot | FromVolume

  datatype Reply<T> = Reply(account: Account, result: Result<T, ControllerError>)

  datatype VolumeContext = VolumeContext(
    volumeID: string, crn: string, clusterID: string, tags: string, iops: Option<string>, region: string, zone: string)

  datatype VolumeResponse = VolumeResponse(
    volumeID: string, capacityBytes: int64, context: VolumeContext, source: Option<string>)

  datatype SnapshotResponse = SnapshotResponse(handle: string, sourceVolumeID: string, size: int, ready: bool)

  function SessionError(session: Session): ControllerError {
    match session
    case Unreachable => EndpointNotReachable
    case TimedOut => Timeout
    case _ => InternalError
  }

  // ---- Looking a volume up ----------------------------------------------------------------

  predicate CountsAsMissing(kind: ErrorType) {
    kind == EntityNotFound || kind == RetrivalFailed
  }

  /** By name if there is one, else by id; an error that reads as "not found" is no volume. */
  function CheckIfVolumeExists(a: Account, name: Option<string>, id: string, lookup: Cloud.Lookup)
    : Result<Option<Cloud.VolumeEntry>, ErrorType>
  {
    if name.GetOr("") == "" && id == "" then Err(OtherType)
    else
      var found := if name.GetOr("") != "" then Cloud.GetByName(a.volumes, name.value, lookup)
                   else Cloud.GetById(a.volumes, id, lookup);
      match found
      case Ok(v) => Ok(Some(v))
      case Err(kind) => if CountsAsMissing(kind) then Ok(None) else Err(kind)
  }

  // ---- CreateVolume ------------------------------------------------------------------------

  predicate NamesByCRN(source: ContentSource) {
    source.FromSnapshot? && "crn:" <= WithoutSpaces(source.id)
  }

  function WithoutSpaces(s: string): string {
    if s == "" then "" else (if s[0] == ' ' then "" else s[..1]) + WithoutSpaces(s[1..])
  }

  /** The tags the library asks for: the requested ones, then the extra labels if there are any. */
  function AskedTags(spec: VolumeSpec, cfg: Config): seq<string> {
    spec.tags + TagsOf(cfg.extraLabels)
  }

  /** The volume the provider creates for a specification. */
  function NewVolume(spec: VolumeSpec, source: ContentSource, issued: Issue, cfg: Config): Cloud.VolumeEntry {
    Entry(issued.id, spec.name,
          Cloud.VolumeBody(
            spec.capacity,
            if spec.iops.Some? then spec.iops.value else issued.iops,
            spec.az,
            if issued.keepsTags then AskedTags(spec, cfg) else [],
            issued.crn,
            if !source.FromSnapshot? then "" else if NamesByCRN(source) then issued.sourceID else source.id))
  }

  /** The answer about a volume; `capacity` counts GiB. */
  function CreateResponse(v: Cloud.VolumeEntry, capacity: int, tags: seq<string>, region: string, cfg: Config)
    : VolumeResponse
  {
    VolumeResponse(
      v.id,
      Wrap64(capacity * GIB),
      VolumeContext(v.id, v.body.crn, cfg.clusterID, TagLabel(tags),
                    if v.body.iops != "" then Some(v.body.iops) else None,
                    if region != "" then region else cfg.region,
                    v.body.az),
      if v.body.snapshotID != "" then Some(v.body.snapshotID) else None)
  }

  /** What a create request is refused for before the provider is asked anything. */
  function CreateObjection(req: CreateRequest, source: ContentSource, session: Session): Option<ControllerError> {
    if req.name == "" then Some(MissingVolumeName)
    else if req.capabilities == [] then Some(NoVolumeCapabilities)
    else if !AllSupported(req.capabilities, DRIVER_MODES) then Some(VolumeCapabilitiesNotSupported)
    else if !Accepts(req) then Some(InvalidParameters)
    else if session != Opened then Some(SessionError(session))
    else if source == FromVolume then Some(UnsupportedVolumeContentSource)
    else if source == NilSnapshot then Some(VolumeInvalidArguments)
    else None
  }

  function ExistingAnswer(v: Cloud.VolumeEntry, spec: VolumeSpec, cfg: Config)
    : Result<VolumeResponse, ControllerError>
  {
    if v.body.capacity.Some? && spec.capacity.Some? && v.body.capacity == spec.capacity then
      Ok(CreateResponse(v, v.body.capacity.value, v.body.tags, spec.region, cfg))
    else Err(VolumeAlreadyExists)
  }

  function MadeAnswer(a: Account, spec: VolumeSpec, source: ContentSource, cfg: Config, env: Env): Reply<VolumeResponse>
    requires spec.capacity.Some?
  {
    var made := Cloud.CreateVolume(a, NewVolume(spec, source, env.issued, cfg), env.act);
    match made.result
    case Err(kind) => Reply(made.account, Err(if kind == RetrivalFailed then ObjectNotFound else BackendError))
    case Ok(v) =>
      var tags := if v.body.tags == [] then AskedTags(spec, cfg) else v.body.tags;
      Reply(made.account, Ok(CreateResponse(v, spec.capacity.value, tags, spec.region, cfg)))
  }

  /** A lookup error that is not "not found" does not stop the request: it goes on to create. */
  function FoundOrMade(a: Account, cfg: Config, spec: VolumeSpec, source: ContentSource, env: Env)
    : Reply<VolumeResponse>
    requires spec.capacity.Some?
  {
    var found := CheckIfVolumeExists(a, Some(spec.name), "", env.lookup);
    if found.Ok? && found.value.Some? then Reply(a, ExistingAnswer(found.value.value, spec, cfg))
    else MadeAnswer(a, spec, source, cfg, env)
  }

  function Created(a: Account, cfg: Config, req: CreateRequest, source: ContentSource, env: Env)
    : Reply<VolumeResponse>
  {
    var objection := CreateObjection(req, source, env.session);
    if objection.Some? then Reply(a, Err(objection.value))
    else FoundOrMade(a, cfg, Resolve(req, cfg.resourceGroup), source, env)
  }

  // ---- DeleteVolume and ControllerExpandVolume -----------------------------------------------

  /** A lookup error that is not "not found" does not stop the request either. */
  function Deleted(a: Account, id: string, env: Env): Reply<()> {
    if id == "" then Reply(a, Err(EmptyVolumeID))
    else if env.session != Opened then Reply(a, Err(FailedPrecondition))
    else if CheckIfVolumeExists(a, None, id, env.lookup) == Ok(None) then Reply(a, Ok(()))
    else
      var gone := Cloud.DeleteVolume(a, id, env.act);
      Reply(gone.account, if gone.result.Ok? then Ok(()) else Err(BackendError))
  }

  /** The answer repeats the requested size, not the size granted. */
  function Expanded(a: Account, id: string, bytes: int64, env: Env): Reply<int64> {
    if id == "" then Reply(a, Err(EmptyVolumeID))
    else if env.session != Opened then Reply(a, Err(FailedPrecondition))
    else
      var found := CheckIfVolumeExists(a, None, id, env.lookup);
      if found.Err? then Reply(a, Err(InternalError))
      else if found.value.None? then Reply(a, Err(ObjectNotFound))
      else
        var grown := Cloud.ExpandVolume(a, id, bytes, env.act);
        Reply(grown.account, if grown.result.Ok? then Ok(bytes) else Err(BackendError))
  }

  // ---- Snapshots ---------------------------------------------------------------------------

  function SnapshotAnswer(s: Cloud.SnapshotEntry): SnapshotResponse {
    SnapshotResponse(s.body.crn, s.body.volumeID, s.body.size, s.body.ready)
  }

  function NewSnapshot(name: string, volumeID: string, issued: Issue): Cloud.SnapshotEntry {
    Entry(issued.id, name, Cloud.SnapshotBody(volumeID, issued.crn, issued.size, issued.ready))
  }

  function SnapshotObjection(name: string, volumeID: string, session: Session): Option<ControllerError> {
    if name == "" then Some(MissingSnapshotName)
    else if volumeID == "" then Some(MissingSourceVolumeID)
    else if session != Opened then Some(SessionError(session))
    else None
  }

  /** Whatever error the lookup by name reports, the request goes on to create. */
  function SnapshotCreated(a: Account, name: string, volumeID: string, env: Env): Reply<SnapshotResponse> {
    var objection := SnapshotObjection(name, volumeID, env.session);
    if objection.Some? then Reply(a, Err(objection.value))
    else
      match Cloud.GetByName(a.snapshots, name, env.lookup)
      case Ok(s) =>
        Reply(a, if s.body.volumeID != volumeID then Err(SnapshotAlreadyExists) else Ok(SnapshotAnswer(s)))
      case Err(_) =>
        var made := Cloud.CreateSnapshot(a, NewSnapshot(name, volumeID, env.issued), env.act);
        Reply(made.account, if made.result.Ok? then Ok(SnapshotAnswer(made.result.value)) else Err(InternalError))
  }

  function SnapshotDeleted(a: Account, handle: string, env: Env): Reply<()> {
    if handle == "" then Reply(a, Err(EmptySnapshotID))
    else if env.session != Opened then Reply(a, Err(SessionError(env.session)))
    else
      var gone := Cloud.DeleteSnapshot(a, ParseHandle(handle).snapshotID, env.act);
      Reply(gone.account,
            match gone.result
            case Ok(_) => Ok(())
            case Err(kind) => if kind == RetrivalFailed then Ok(()) else Err(BackendError))
  }

  // ---- The server ----------------------------------------------------------------------------

  class CSIControllerServer {
    const config: Config
    const lockEnabled: bool
    var account: Account
    var instances: map<string, A.Instance>
    var held: set<string>

    constructor (config: Config, lockEnabled: bool, account: Account)
      ensures this.config == config && this.lockEnabled == lockEnabled
      ensures this.account == account && instances == map[] && held == {}
    {
      this.config, this.lockEnabled, this.account := config, lockEnabled, account;
      instances, held := map[], {};
    }

    function InstanceAt(nodeID: string): A.Instance
      reads this
    {
      if nodeID in instances then instances[nodeID] else A.EMPTY_INSTANCE
    }

    /** Reading the request and its content source; all that precedes the provider calls. */
    method Examine(req: CreateRequest, source: ContentSource, session: Session)
      returns (volume: Volume, err: Option<ControllerError>)
      ensures fresh(volume)
      ensures err == CreateObjection(req, source, session)
      ensures err.None? ==> volume.Value() == Resolve(req, config.resourceGroup)
    {
      volume := new Volume(req.name);
      if |req.name| == 0 {
        return volume, Some(MissingVolumeName);
      }
      if |req.capabilities| == 0 {
        return volume, Some(NoVolumeCapabilities);
      }
      var supported := AreVolumeCapabilitiesSupported(req.capabilities, DRIVER_MODES);
      if !supported {
        return volume, Some(VolumeCapabilitiesNotSupported);
      }
      var bad;
      volume, bad := GetVolumeParameters(req, config.resourceGroup);
      if bad.Some? {
        return volume, Some(InvalidParameters);
      }
      if session != Opened {
        return volume, Some(SessionError(session));
      }
      match source
      case FromVolume => return volume, Some(UnsupportedVolumeContentSource);
      case NilSnapshot => return volume, Some(VolumeInvalidArguments);
      case _ => return volume, None;
    }

    method CreateVolume(req: CreateRequest, source: ContentSource, env: Env)
      returns (result: Result<VolumeResponse, ControllerError>)
      modifies this`account
      ensures Reply(account, result) == Created(old(account), config, req, source, env)
    {
      var volume, err := Examine(req, source, env.session);
      if err.Some? {
        return Err(err.value);
      }
      result := FindOrCreate(volume, source, env);
    }

    /** The part of a create that asks the provider. */
    method FindOrCreate(volume: Volume, source: ContentSource, env: Env)
      returns (result: Result<VolumeResponse, ControllerError>)
      requires volume.capacity.Some?
      modifies this`account
      ensures Reply(account, result) == FoundOrMade(old(account), config, volume.Value(), source, env)
    {
      var spec := volume.Value();
      var found := CheckIfVolumeExists(account, Some(volume.name), "", env.lookup);
      if found.Ok? && found.value.Some? {
        var existing := found.value.value;
        if existing.body.capacity.Some? && existing.body.capacity == volume.capacity {
          return Ok(CreateResponse(existing, existing.body.capacity.value, existing.body.tags, volume.region, config));
        }
        return Err(VolumeAlreadyExists);
      }
      var made := Cloud.CreateVolume(account, NewVolume(spec, source, env.issued, config), env.act);
      account := made.account;
      if made.result.Err? {
        return Err(if made.result.error == RetrivalFailed then ObjectNotFound else BackendError);
      }
      var tags := if made.result.value.body.tags == [] then AskedTags(spec, config) else made.result.value.body.tags;
      return Ok(CreateResponse(made.result.value, volume.capacity.value, tags, volume.region, config));
    }

    method DeleteVolume(id: string, env: Env) returns (result: Result<(), ControllerError>)
      modifies this`account
      ensures Reply(account, result) == Deleted(old(account), id, env)
    {
      if |id| == 0 {
        return Err(EmptyVolumeID);
      }
      if env.session != Opened {
        return Err(FailedPrecondition);
      }
      var found := CheckIfVolumeExists(account, None, id, env.lookup);
      if found.Ok? && found.value.None? {
        return Ok(());
      }
      var gone := Cloud.DeleteVolume(account, id, env.act);
      account := gone.account;
      return if gone.result.Ok? then Ok(()) else Err(BackendError);
    }

    method ControllerExpandVolume(id: string, bytes: int64, env: Env) returns (result: Result<int64, ControllerError>)
      modifies this`account
      ensures Reply(account, result) == Expanded(old(account), id, bytes, env)
    {
      if |id| == 0 {
        return Err(EmptyVolumeID);
      }
      if env.session != Opened {
        return Err(FailedPrecondition);
      }
      var found := CheckIfVolumeExists(account, None, id, env.lookup);
      if found.Ok? && found.value.None? {
        return Err(ObjectNotFound);
      } else if found.Err? {
        return Err(InternalError);
      }
      var grown := Cloud.ExpandVolume(account, id, bytes, env.act);
      account := grown.account;
      return if grown.result.Ok? then Ok(bytes) else Err(BackendError);
    }

    method CreateSnapshot(name: string, volumeID: string, env: Env)
      returns (result: Result<SnapshotResponse, ControllerError>)
      modifies this`account
      ensures Reply(account, result) == SnapshotCreated(old(account), name, volumeID, env)
    {
      if |name| == 0 {
        return Err(MissingSnapshotName);
      }
      if |volumeID| == 0 {
        return Err(MissingSourceVolumeID);
      }
      if env.session != Opened {
        return Err(SessionError(env.session));
      }
      var found := Cloud.GetByName(account.snapshots, name, env.lookup);
      if found.Ok? {
        if found.value.body.volumeID != volumeID {
          return Err(SnapshotAlreadyExists);
        }
        return Ok(SnapshotAnswer(found.value));
      }
      var made := Cloud.CreateSnapshot(account, NewSnapshot(name, volumeID, env.issued), env.act);
      account := made.account;
      return if made.result.Ok? then Ok(SnapshotAnswer(made.result.value)) else Err(InternalError);
    }

    method DeleteSnapshot(handle: string, env: Env) returns (result: Result<(), ControllerError>)
      modifies this`account
      ensures Reply(account, result) == SnapshotDeleted(old(account), handle, env)
    {
      if |handle| == 0 {
        return Err(EmptySnapshotID);
      }
      if env.session != Opened {
        return Err(SessionError(env.session));
      }
      var parsed := ParseHandle(handle);
      var gone := Cloud.DeleteSnapshot(account, parsed.snapshotID, env.act);
      account := gone.account;
      if gone.result.Err? && gone.result.error != RetrivalFailed {
        return Err(BackendError);
      }
      return Ok(());
    }

    /** Taking an enabled lock waits until it is free, so a call that returns found it so. */
    method Lock(nodeID: string)
      requires lockEnabled ==> nodeID !in held
      modifies this`held
      ensures held == old(held) + if lockEnabled then {nodeID} else {}
    {
      if lockEnabled {
        held := held + {nodeID};
      }
    }

    method Unlock(nodeID: string)
      modifies this`held
      ensures held == old(held) - if lockEnabled then {nodeID} else {}
    {
      if lockEnabled {
        held := held - {nodeID};
      }
    }

    /** Refused before the lock, or run whole under it; whichever way it leaves, the lock
        is free again and only this instance can have changed. */
    method ControllerPublishVolume(req: A.Request) returns (response: A.Response)
      requires req.Publish? && (lockEnabled ==> req.nodeID !in held)
      modifies this`instances, this`held
      ensures held == old(held)
      ensures A.Objection(req).Some? ==>
                instances == old(instances) && response == A.Refused(A.Objection(req).value)
      ensures A.Objection(req).None? ==>
                && A.Handled(InstanceAt(req.nodeID), response) == A.HandledWhole(old(InstanceAt(req.nodeID)), req)
                && instances == old(instances)[req.nodeID := InstanceAt(req.nodeID)]
    {
      if |req.volumeID| == 0 {
        return A.Refused(EmptyVolumeID);
      }
      if |req.nodeID| == 0 {
        return A.Refused(EmptyNodeID);
      }
      if req.capability.None? {
        return A.Refused(NoVolumeCapabilities);
      }
      Lock(req.nodeID);
      response := Attach(req);
      Unlock(req.nodeID);
    }

    /** The part of a publish that runs under the lock. */
    method Attach(req: A.Request) returns (response: A.Response)
      requires req.Publish? && A.Objection(req).None?
      modifies this`instances
      ensures A.Handled(InstanceAt(req.nodeID), response) == A.PublishHandled(old(InstanceAt(req.nodeID)), req)
      ensures instances == old(instances)[req.nodeID := InstanceAt(req.nodeID)]
    {
      instances := instances[req.nodeID := InstanceAt(req.nodeID)];
      var supported := AreVolumeCapabilitiesSupported([req.capability.value], DRIVER_MODES);
      if !supported {
        return A.Refused(VolumeCapabilitiesNotSupported);
      }
      if !req.env.session {
        return A.Refused(InternalError);
      }
      if req.env.lookup == A.Missing {
        return A.Refused(ObjectNotFound);
      } else if req.env.lookup == A.Broken {
        return A.Refused(InternalError);
      }
      var attached := A.AttachVolume(InstanceAt(req.nodeID), req.volumeID, req.env.devicePath, req.env.act);
      instances := instances[req.nodeID := attached.instance];
      if attached.result.Err? {
        return A.BackendOf(attached.result.error);
      }
      var waited := A.WaitForAttachVolume(InstanceAt(req.nodeID), req.volumeID, attached.result.value.id, req.env.wait);
      instances := instances[req.nodeID := waited.instance];
      if waited.result.Err? {
        return A.Refused(BackendError);
      }
      var context := A.MergeContext(A.BaseContext(req.volumeID, req.nodeID, waited.result.value),
                                    map[A.PUBLISH_INFO_REQUEST_ID := req.env.requestID]);
      return A.Published(context);
    }

    method ControllerUnpublishVolume(req: A.Request) returns (response: A.Response)
      requires req.Unpublish? && (lockEnabled ==> req.nodeID !in held)
      modifies this`instances, this`held
      ensures held == old(held)
      ensures A.Objection(req).Some? ==>
                instances == old(instances) && response == A.Refused(A.Objection(req).value)
      ensures A.Objection(req).None? ==>
                && A.Handled(InstanceAt(req.nodeID), response) == A.HandledWhole(old(InstanceAt(req.nodeID)), req)
                && instances == old(instances)[req.nodeID := InstanceAt(req.nodeID)]
    {
      if |req.volumeID| == 0 {
        return A.Refused(EmptyVolumeID);
      }
      if |req.nodeID| == 0 {
        return A.Refused(EmptyNodeID);
      }
      Lock(req.nodeID);
      response := Detach(req);
      Unlock(req.nodeID);
    }

    /** The part of an unpublish that runs under the lock. */
    method Detach(req: A.Request) returns (response: A.Response)
      requires req.Unpublish? && A.Objection(req).None?
      modifies this`instances
      ensures A.Handled(InstanceAt(req.nodeID), response) == A.UnpublishHandled(old(InstanceAt(req.nodeID)), req)
      ensures instances == old(instances)[req.nodeID := InstanceAt(req.nodeID)]
    {
      instances := instances[req.nodeID := InstanceAt(req.nodeID)];
      if !req.env.session {
        return A.Refused(InternalError);
      }
      var detached := A.DetachVolume(InstanceAt(req.nodeID), req.volumeID, req.env.act);
      instances := instances[req.nodeID := detached.instance];
      if detached.result.Err? {
        return A.Refused(BackendError);
      }
      var waited := A.WaitForDetachVolume(InstanceAt(req.nodeID), req.volumeID, req.env.wait);
      instances := instances[req.nodeID := waited.instance];
      if waited.result.Err? {
        return A.Refused(BackendError);
      }
      return A.Unpublished;
    }
  }
}
