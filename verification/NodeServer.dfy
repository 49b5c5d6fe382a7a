/** The node service: staging a volume's device at one path, publishing it at others,
    and undoing both. The functions say what each call does to the node; the class
    runs the calls step by step on a mount table it updates. */
module NodeServer {
  import opened Common
  import opened Mounter

  const XFS := "xfs"

  datatype Request =
    | Stage(volumeID: string, stagingPath: string, capability: Option<VolumeCapability>,
            context: map<string, string>)
    | Publish(volumeID: string, stagingPath: string, targetPath: string,
              capability: Option<VolumeCapability>, context: map<string, string>, readonly: bool)
    | Unpublish(volumeID: string, targetPath: string)
    | Unstage(volumeID: string, stagingPath: string)

  datatype NodeError =
    | EmptyVolumeID | NoStagingTargetPath | NoTargetPath | NoVolumeCapabilities
    | VolumeCapabilitiesNotSupported | EmptyDevicePath | DevicePathFindFailed
    | TargetPathCheckFailed | TargetPathCreateFailed | VolumeMountCheckFailed
    | FormatAndMountFailed | FileSystemResizeFailed | MountPointValidateError
    | UnmountFailed | CreateMountTargetFailed | RemoveMountTargetFailed | MountFailed

  /** A capability without an access type makes staging crash, and makes publishing
      return neither a response nor an error. */
  datatype Outcome = Success | Failure(error: NodeError) | NoReply | Crash

  datatype Reply = Reply(world: World, outcome: Outcome)

  function Failing(w: World, error: NodeError): Reply {
    Reply(w, Failure(error))
  }

  function DevicePathIn(context: map<string, string>): string {
    if PUBLISH_INFO_DEVICE_PATH in context then context[PUBLISH_INFO_DEVICE_PATH] else ""
  }

  /** The text before the last slash. */
  function DirOf(path: string): string {
    if path == "" then "."
    else if path[|path| - 1] == '/' then (if |path| == 1 then "/" else path[..|path| - 1])
    else DirOf(path[..|path| - 1])
  }

  function CollectedOptions(fsType: string, flags: seq<string>): seq<string> {
    if fsType == XFS then flags + ["nouuid"] else flags
  }

  function PublishOptions(readonly: bool): seq<string> {
    if readonly then ["bind", "ro"] else ["bind"]
  }

  // ---- Effects of the helpers -----------------------------------------------------

  /** The device path itself, unless even a second look at it fails. */
  function FindDevicePathSource(w: World, devicePath: string): Lookup {
    var first := PathExists(w, devicePath);
    if first.error == NoError && first.yes then Lookup(first.world, devicePath, false)
    else
      var second := PathExists(first.world, devicePath);
      Lookup(second.world, devicePath, second.error != NoError)
  }

  /** The second probe, after a leftover mount was unmounted. */
  function ProbedAgain(w: World, target: string): Reply {
    var again := IsLikelyNotMountPoint(w, target);
    if again.error != NoError then Failing(again.world, MountPointValidateError)
    else if !again.yes then Failing(again.world, UnmountFailed)
    else Failing(Remove(again.world, target).world, CreateMountTargetFailed)
  }

  /** What follows a failed bind mount: probe, unmount what was left, probe again,
      delete the directory. */
  function RolledBack(w: World, target: string): Reply {
    var probe := IsLikelyNotMountPoint(w, target);
    if probe.error != NoError then Failing(probe.world, MountPointValidateError)
    else if probe.yes then
      Failing(Remove(probe.world, target).world, CreateMountTargetFailed)
    else
      var unmounted := Unmount(probe.world, target);
      if unmounted.failed then Failing(unmounted.world, UnmountFailed)
      else ProbedAgain(unmounted.world, target)
  }

  function MountProcessed(w: World, staging: string, target: string, fsType: string, options: seq<string>): Reply {
    var made := MakePath(w, target);
    if made.failed then Failing(made.world, TargetPathCreateFailed)
    else
      var mounted := Mount(made.world, staging, target, fsType, options);
      if mounted.failed then RolledBack(mounted.world, target) else Reply(mounted.world, Success)
  }

  function RemovedAfter(w: World, target: string, error: NodeError): Reply {
    var removal := Remove(w, target);
    Failing(removal.world, if removal.failed then RemoveMountTargetFailed else error)
  }

  /** Bind-mounting a device onto a file it creates; a failed mount is not unmounted. */
  function BlockMounted(w: World, source: string, target: string, options: seq<string>): Reply {
    var file := MakePath(w, target);
    if file.failed then RemovedAfter(file.world, target, CreateMountTargetFailed)
    else
      var mounted := Mount(file.world, source, target, "", options);
      if mounted.failed then RemovedAfter(mounted.world, target, MountFailed)
      else Reply(mounted.world, Success)
  }

  function BlockProcessed(w: World, devicePath: string, target: string, options: seq<string>): Reply {
    if devicePath == "" then Failing(w, EmptyDevicePath)
    else
      var source := FindDevicePathSource(w, devicePath);
      if source.failed then Failing(source.world, DevicePathFindFailed)
      else
        var dir := PathExists(source.world, DirOf(target));
        if dir.error != NoError then Failing(dir.world, TargetPathCheckFailed)
        else
          var made := if dir.yes then Done(dir.world, false) else MakePath(dir.world, DirOf(target));
          if made.failed then Failing(made.world, TargetPathCreateFailed)
          else BlockMounted(made.world, source.text, target, options)
  }

  /** Formatting and mounting, then growing the file system. */
  function Formatted(w: World, devicePath: string, staging: string, access: AccessType): Reply {
    if !access.MountFs? then Reply(w, Crash)
    else
      var fsType := if access.fsType != "" then access.fsType else DEFAULT_FS_TYPE;
      var mounted := FormatAndMount(w, devicePath, staging, fsType, CollectedOptions(fsType, access.flags));
      if mounted.failed then Failing(mounted.world, FormatAndMountFailed)
      else
        var resized := Resize(mounted.world);
        if resized.failed then Failing(resized.world, FileSystemResizeFailed)
        else Reply(resized.world, Success)
  }

  /** Staging a device once its path and the staging path are known to exist. */
  function DeviceStaged(w: World, devicePath: string, staging: string, access: AccessType): Reply {
    var device := GetDeviceNameFromMount(w, staging);
    if device.failed then Failing(device.world, VolumeMountCheckFailed)
    else
      var target := EvalSymlinks(device.world, devicePath);
      if !target.failed && device.text == target.text then Reply(target.world, Success)
      else Formatted(target.world, devicePath, staging, access)
  }

  function Staged(w: World, devicePath: string, staging: string, access: AccessType): Reply {
    if devicePath == "" then Failing(w, EmptyDevicePath)
    else
      var source := FindDevicePathSource(w, devicePath);
      if source.failed then Failing(source.world, DevicePathFindFailed)
      else
        var look := PathExists(source.world, staging);
        if look.error != NoError then Failing(look.world, TargetPathCheckFailed)
        else
          var made := if look.yes then Done(look.world, false) else MakePath(look.world, staging);
          if made.failed then Failing(made.world, TargetPathCreateFailed)
          else DeviceStaged(made.world, source.text, staging, access)
  }

  function Published(w: World, req: Request): Reply
    requires req.Publish? && req.capability.Some?
  {
    var probe := IsLikelyNotMountPoint(w, req.targetPath);
    if probe.error != NoError && probe.error != NotExist then Failing(probe.world, MountPointValidateError)
    else if !probe.yes then Reply(probe.world, Success)
    else match req.capability.value.access
      case Block =>
        BlockProcessed(probe.world, DevicePathIn(req.context), req.targetPath, PublishOptions(req.readonly))
      case MountFs(_, _) =>
        MountProcessed(probe.world, req.stagingPath, req.targetPath, "", PublishOptions(req.readonly))
      case Unset => Reply(probe.world, NoReply)
  }

  function Cleaned(w: World, path: string): Reply {
    var done := CleanupMountPoint(w, path);
    Reply(done.world, if done.failed then Failure(UnmountFailed) else Success)
  }

  // ---- Effects of the calls ----------------------------------------------------------

  /** What a request is refused for before anything is looked at. */
  function Objection(req: Request): Option<NodeError> {
    match req
    case Stage(volumeID, staging, cap, _) =>
      if volumeID == "" then Some(EmptyVolumeID)
      else if staging == "" then Some(NoStagingTargetPath)
      else if cap.None? || cap.value.mode == UnknownMode then Some(NoVolumeCapabilities)
      else if !AllSupported([cap.value], DRIVER_MODES) then Some(VolumeCapabilitiesNotSupported)
      else None
    case Publish(volumeID, staging, target, cap, _, _) =>
      if volumeID == "" then Some(EmptyVolumeID)
      else if staging == "" then Some(NoStagingTargetPath)
      else if target == "" then Some(NoTargetPath)
      else if cap.None? then Some(NoVolumeCapabilities)
      else if !AllSupported([cap.value], DRIVER_MODES) then Some(VolumeCapabilitiesNotSupported)
      else None
    case Unpublish(volumeID, target) =>
      if volumeID == "" then Some(EmptyVolumeID) else if target == "" then Some(NoTargetPath) else None
    case Unstage(volumeID, staging) =>
      if volumeID == "" then Some(EmptyVolumeID) else if staging == "" then Some(NoStagingTargetPath) else None
  }

  /** A request that names all it has to name, for a volume of a supported mode. */
  predicate Complete(req: Request) {
    match req
    case Stage(volumeID, staging, cap, _) =>
      volumeID != "" && staging != "" && cap.Some? && cap.value.mode == SingleNodeWriter
    case Publish(volumeID, staging, target, cap, _, _) =>
      volumeID != "" && staging != "" && target != "" && cap.Some? && cap.value.mode == SingleNodeWriter
    case Unpublish(volumeID, target) => volumeID != "" && target != ""
    case Unstage(volumeID, staging) => volumeID != "" && staging != ""
  }

  lemma SupportedMode(cap: VolumeCapability)
    ensures AllSupported([cap], DRIVER_MODES) <==> cap.mode == SingleNodeWriter
  {
    assert cap in [cap];
    assert DRIVER_MODES[0] == SingleNodeWriter;
  }

  /** Exactly the incomplete requests are refused. */
  lemma RefusedExactlyWhen(req: Request)
    ensures Objection(req).Some? <==> !Complete(req)
  {
    if (req.Stage? || req.Publish?) && req.capability.Some? {
      SupportedMode(req.capability.value);
    }
  }

  function Served(w: World, req: Request): Reply {
    var objection := Objection(req);
    if objection.Some? then Failing(w, objection.value)
    else match req
      case Stage(_, staging, cap, context) =>
        if cap.value.access.Block? then Reply(w, Success)
        else Staged(w, DevicePathIn(context), staging, cap.value.access)
      case Publish(_, _, _, _, _, _) => Published(w, req)
      case Unpublish(_, target) => Cleaned(w, target)
      case Unstage(_, staging) => Cleaned(w, staging)
  }

  // ---- The service ----------------------------------------------------------------------

  method CollectMountOptions(fsType: string, flags: seq<string>) returns (options: seq<string>)
    ensures options == CollectedOptions(fsType, flags)
    ensures flags <= options && |options| <= |flags| + 1
    ensures options[|flags|..] == ["nouuid"] <==> fsType == XFS
    ensures options == flags <==> fsType != XFS
  {
    options := [];
    options := options + flags;
    if fsType == XFS {
      options := options + ["nouuid"];
    }
  }

  /** One mutex covers every call, so a call has the node to itself from start to end. */
  class CSINodeServer {
    var world: World

    constructor (world: World)
      ensures this.world == world
    {
      this.world := world;
    }

    method FindDevicePath(devicePath: string) returns (source: string, failed: bool)
      modifies this
      ensures Lookup(world, source, failed) == FindDevicePathSource(old(world), devicePath)
    {
      source := devicePath;
      var look := PathExists(world, devicePath);
      world := look.world;
      if look.error != NoError || !look.yes {
        // The device nodes are refreshed here; whether that worked is not looked at.
        look := PathExists(world, devicePath);
        world := look.world;
        if look.error != NoError {
          return source, true;
        }
      }
      failed := false;
    }

    method ProcessMount(staging: string, target: string, fsType: string, options: seq<string>)
      returns (outcome: Outcome)
      modifies this
      ensures Reply(world, outcome) == MountProcessed(old(world), staging, target, fsType, options)
    {
      var step := MakePath(world, target);
      world := step.world;
      if step.failed {
        return Failure(TargetPathCreateFailed);
      }
      step := Mount(world, staging, target, fsType, options);
      world := step.world;
      if step.failed {
        var probe := IsLikelyNotMountPoint(world, target);
        world := probe.world;
        if probe.error != NoError {
          return Failure(MountPointValidateError);
        }
        if !probe.yes {
          step := Unmount(world, target);
          world := step.world;
          if step.failed {
            return Failure(UnmountFailed);
          }
          probe := IsLikelyNotMountPoint(world, target);
          world := probe.world;
          if probe.error != NoError {
            return Failure(MountPointValidateError);
          }
          if !probe.yes {
            return Failure(UnmountFailed);
          }
        }
        var removal := Remove(world, target);
        world := removal.world;
        return Failure(CreateMountTargetFailed);
      }
      outcome := Success;
    }

    method ProcessMountForBlock(devicePath: string, target: string, options: seq<string>)
      returns (outcome: Outcome)
      modifies this
      ensures Reply(world, outcome) == BlockProcessed(old(world), devicePath, target, options)
    {
      if |devicePath| == 0 {
        return Failure(EmptyDevicePath);
      }
      var source, failed := FindDevicePath(devicePath);
      if failed {
        return Failure(DevicePathFindFailed);
      }
      var targetDir := DirOf(target);
      var look := PathExists(world, targetDir);
      world := look.world;
      if look.error != NoError {
        return Failure(TargetPathCheckFailed);
      }
      var step: Done;
      if !look.yes {
        step := MakePath(world, targetDir);
        world := step.world;
        if step.failed {
          return Failure(TargetPathCreateFailed);
        }
      }
      step := MakePath(world, target);
      world := step.world;
      if step.failed {
        var removal := Remove(world, target);
        world := removal.world;
        return Failure(if removal.failed then RemoveMountTargetFailed else CreateMountTargetFailed);
      }
      step := Mount(world, source, target, "", options);
      world := step.world;
      if step.failed {
        var removal := Remove(world, target);
        world := removal.world;
        return Failure(if removal.failed then RemoveMountTargetFailed else MountFailed);
      }
      outcome := Success;
    }

    method NodePublishVolume(req: Request) returns (outcome: Outcome)
      requires req.Publish?
      modifies this
      ensures Reply(world, outcome) == Served(old(world), req)
    {
      if |req.volumeID| == 0 {
        return Failure(EmptyVolumeID);
      }
      if |req.stagingPath| == 0 {
        return Failure(NoStagingTargetPath);
      }
      if |req.targetPath| == 0 {
        return Failure(NoTargetPath);
      }
      if req.capability.None? {
        return Failure(NoVolumeCapabilities);
      }
      var supported := AreVolumeCapabilitiesSupported([req.capability.value], DRIVER_MODES);
      if !supported {
        return Failure(VolumeCapabilitiesNotSupported);
      }
      var probe := IsLikelyNotMountPoint(world, req.targetPath);
      world := probe.world;
      if probe.error != NoError && probe.error != NotExist {
        return Failure(MountPointValidateError);
      }
      if !probe.yes {
        return Success;
      }
      var options := ["bind"];
      if req.readonly {
        options := options + ["ro"];
      }
      assert options == PublishOptions(req.readonly);
      match req.capability.value.access {
        case Block =>
          outcome := ProcessMountForBlock(DevicePathIn(req.context), req.targetPath, options);
        case MountFs(_, _) =>
          outcome := ProcessMount(req.stagingPath, req.targetPath, "", options);
        case Unset =>
          outcome := NoReply;
      }
    }

    method NodeUnpublishVolume(req: Request) returns (outcome: Outcome)
      requires req.Unpublish?
      modifies this
      ensures Reply(world, outcome) == Served(old(world), req)
    {
      if |req.volumeID| == 0 {
        return Failure(EmptyVolumeID);
      }
      if |req.targetPath| == 0 {
        return Failure(NoTargetPath);
      }
      var done := CleanupMountPoint(world, req.targetPath);
      world := done.world;
      if done.failed {
        return Failure(UnmountFailed);
      }
      outcome := Success;
    }

    method NodeStageVolume(req: Request) returns (outcome: Outcome)
      requires req.Stage?
      modifies this
      ensures Reply(world, outcome) == Served(old(world), req)
    {
      if |req.volumeID| == 0 {
        return Failure(EmptyVolumeID);
      }
      if |req.stagingPath| == 0 {
        return Failure(NoStagingTargetPath);
      }
      if req.capability.None? || req.capability.value.mode == UnknownMode {
        return Failure(NoVolumeCapabilities);
      }
      var supported := AreVolumeCapabilitiesSupported([req.capability.value], DRIVER_MODES);
      if !supported {
        return Failure(VolumeCapabilitiesNotSupported);
      }
      if req.capability.value.access.Block? {
        return Success;
      }
      outcome := StageDevice(DevicePathIn(req.context), req.stagingPath, req.capability.value.access);
    }

    /** The part of staging that concerns file systems. */
    method StageDevice(devicePath: string, staging: string, access: AccessType) returns (outcome: Outcome)
      modifies this
      ensures Reply(world, outcome) == Staged(old(world), devicePath, staging, access)
    {
      if |devicePath| == 0 {
        return Failure(EmptyDevicePath);
      }
      var source, failed := FindDevicePath(devicePath);
      if failed {
        return Failure(DevicePathFindFailed);
      }
      var look := PathExists(world, staging);
      world := look.world;
      if look.error != NoError {
        return Failure(TargetPathCheckFailed);
      }
      if !look.yes {
        var step := MakePath(world, staging);
        world := step.world;
        if step.failed {
          return Failure(TargetPathCreateFailed);
        }
      }
      var device := GetDeviceNameFromMount(world, staging);
      world := device.world;
      if device.failed {
        return Failure(VolumeMountCheckFailed);
      }
      var target := EvalSymlinks(world, source);
      world := target.world;
      if !target.failed && device.text == target.text {
        return Success;
      }
      if !access.MountFs? {
        return Crash;
      }
      var fsType := DEFAULT_FS_TYPE;
      if access.fsType != "" {
        fsType := access.fsType;
      }
      var options := CollectMountOptions(fsType, access.flags);
      var step := FormatAndMount(world, source, staging, fsType, options);
      world := step.world;
      if step.failed {
        return Failure(FormatAndMountFailed);
      }
      step := Resize(world);
      world := step.world;
      if step.failed {
        return Failure(FileSystemResizeFailed);
      }
      outcome := Success;
    }

    method NodeUnstageVolume(req: Request) returns (outcome: Outcome)
      requires req.Unstage?
      modifies this
      ensures Reply(world, outcome) == Served(old(world), req)
    {
      if |req.volumeID| == 0 {
        return Failure(EmptyVolumeID);
      }
      if |req.stagingPath| == 0 {
        return Failure(NoStagingTargetPath);
      }
      var done := CleanupMountPoint(world, req.stagingPath);
      world := done.world;
      if done.failed {
        return Failure(UnmountFailed);
      }
      outcome := Success;
    }
  }
}
