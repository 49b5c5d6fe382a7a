/** Which faults decide how a stage or a publish comes out, and exactly when. */
module NodeOutcomes {
  import opened Common
  import opened Mounter
  import opened NodeServer
  import opened NodeEffects
  import opened NodeHistories

  // ---- Faults by position ------------------------------------------------------------------

  function FaultAt(w: World, k: nat): Fault {
    if k < |w.faults| then w.faults[k] else Fine
  }

  /** The node after k calls that changed nothing but the list of faults. */
  function After(w: World, k: nat): World {
    w.(faults := if k <= |w.faults| then w.faults[k..] else [])
  }

  lemma AfterOneMore(w: World, k: nat)
    ensures NextFault(After(w, k)) == FaultAt(w, k)
    ensures Consumed(After(w, k)) == After(w, k + 1)
  {
  }

  predicate There(w: World, p: string) {
    p in w.paths || p in w.host.devices
  }

  /** Looking for the device takes a second look unless the first finds it. */
  function Looks(w: World, devicePath: string): nat {
    if FaultAt(w, 0).Fine? && There(w, devicePath) then 1 else 2
  }

  /** The position of the mount check among the calls of a stage: after the looks for the
      device and the staging path, and the making of the latter if need be. */
  function MountCheckAt(w: World, devicePath: string, staging: string): nat {
    Looks(w, devicePath) + if There(w, staging) then 1 else 2
  }

  /** Every call up to and including the mount check goes well enough. */
  predicate PassesMountCheck(w: World, devicePath: string, staging: string) {
    && (Looks(w, devicePath) == 2 ==> FaultAt(w, 1).Fine?)
    && FaultAt(w, Looks(w, devicePath)).Fine?
    && (!There(w, staging) ==> FaultAt(w, Looks(w, devicePath) + 1).Fine?)
    && FaultAt(w, MountCheckAt(w, devicePath, staging)).Fine?
  }

  /** The oldest mount at the staging path is the device, and its link resolves: either
      every link does, or the call that resolves it meets no fault. */
  predicate TakenForStaged(w: World, devicePath: string, staging: string) {
    && Mounted(w, staging)
    && StackAt(w, staging)[0].device == ResolveLink(w, devicePath)
    && (w.host.symlinksResolve || FaultAt(w, MountCheckAt(w, devicePath, staging) + 1).Fine?)
  }

  // ---- Staging ---------------------------------------------------------------------------------

  lemma DeviceFound(w: World, devicePath: string)
    ensures var source := FindDevicePathSource(w, devicePath);
            && source.text == devicePath && source.world == After(w, Looks(w, devicePath))
            && (source.failed <==> Looks(w, devicePath) == 2 && !FaultAt(w, 1).Fine?)
  {
    AfterOneMore(w, 0);
    AfterOneMore(w, 1);
    assert After(w, 0) == w;
  }

  /** What the first call to go wrong, up to the mount check, is reported as. */
  function EarlyFailure(w: World, devicePath: string, staging: string): NodeError {
    if Looks(w, devicePath) == 2 && !FaultAt(w, 1).Fine? then DevicePathFindFailed
    else if !FaultAt(w, Looks(w, devicePath)).Fine? then TargetPathCheckFailed
    else if !There(w, staging) && !FaultAt(w, Looks(w, devicePath) + 1).Fine? then TargetPathCreateFailed
    else VolumeMountCheckFailed
  }

  /** The faults left after k calls. */
  ghost predicate FaultsFrom(w: World, w': World, k: nat) {
    forall m: nat :: FaultAt(w', m) == FaultAt(w, k + m)
  }

  /** A stage either fails before or at the mount check, leaving all mounts alone; or it
      takes the path for staged; or it goes on to mount. */
  lemma StagedOutline(w: World, devicePath: string, staging: string, access: AccessType) returns (w': World)
    requires Consistent(w) && devicePath != ""
    ensures Untouched(w, w')
    ensures !PassesMountCheck(w, devicePath, staging) ==>
              Staged(w, devicePath, staging, access) == Reply(w', Failure(EarlyFailure(w, devicePath, staging)))
    ensures PassesMountCheck(w, devicePath, staging) ==>
              Staged(w, devicePath, staging, access)
              == if TakenForStaged(w, devicePath, staging) then Reply(w', Success)
                 else Formatted(w', devicePath, staging, access)
    ensures PassesMountCheck(w, devicePath, staging) ==> FaultsFrom(w, w', MountCheckAt(w, devicePath, staging) + 2)
    ensures PassesMountCheck(w, devicePath, staging) && staging !in w.host.devices ==> staging in w'.paths
  {
    var made, passed := StagedUpToCheck(w, devicePath, staging, access);
    w' := made;
    if passed {
      w' := DeviceStagedOutline(made, devicePath, staging, access);
      assert FaultAt(made, 0) == FaultAt(w, MountCheckAt(w, devicePath, staging));
      assert FaultAt(made, 1) == FaultAt(w, MountCheckAt(w, devicePath, staging) + 1);
      if FaultAt(made, 0).Fine? {
        FaultsAdd(w, made, MountCheckAt(w, devicePath, staging), w', 2);
      }
    }
  }

  lemma FaultsAdd(a: World, b: World, k: nat, c: World, l: nat)
    requires FaultsFrom(a, b, k) && FaultsFrom(b, c, l)
    ensures FaultsFrom(a, c, k + l)
  {
    forall m: nat
      ensures FaultAt(c, m) == FaultAt(a, k + l + m)
    {
      assert FaultAt(c, m) == FaultAt(b, l + m);
    }
  }

  /** The part of a stage before the mount check. */
  lemma StagedUpToCheck(w: World, devicePath: string, staging: string, access: AccessType)
      returns (made: World, passed: bool)
    requires Consistent(w) && devicePath != ""
    ensures Untouched(w, made)
    ensures passed <==> (&& (Looks(w, devicePath) == 2 ==> FaultAt(w, 1).Fine?)
                         && FaultAt(w, Looks(w, devicePath)).Fine?
                         && (!There(w, staging) ==> FaultAt(w, Looks(w, devicePath) + 1).Fine?))
    ensures !passed ==>
              Staged(w, devicePath, staging, access) == Reply(made, Failure(EarlyFailure(w, devicePath, staging)))
    ensures passed ==>
              && Staged(w, devicePath, staging, access) == DeviceStaged(made, devicePath, staging, access)
              && FaultsFrom(w, made, MountCheckAt(w, devicePath, staging))
              && (staging !in w.host.devices ==> staging in made.paths)
  {
    DeviceFound(w, devicePath);
    var k := Looks(w, devicePath);
    var found := After(w, k);
    AfterOneMore(w, k);
    made, passed := found, false;
    if !FindDevicePathSource(w, devicePath).failed {
      var look := PathExists(found, staging);
      made := look.world;
      if look.error == NoError {
        MadeFaults(w, k + 1, staging);
        var step := if look.yes then Done(look.world, false) else MakePath(look.world, staging);
        made, passed := step.world, !step.failed;
      }
    }
  }

  /** Making the path, if it is not there, takes one more call. */
  lemma MadeFaults(w: World, k: nat, staging: string)
    requires Consistent(w)
    ensures var look := After(w, k);
            var made := if There(w, staging) then Done(look, false) else MakePath(look, staging);
            var at := if There(w, staging) then k else k + 1;
            && Untouched(w, made.world)
            && (made.failed <==> !There(w, staging) && !FaultAt(w, k).Fine?)
            && FaultsFrom(w, made.world, at)
            && (!made.failed && staging !in w.host.devices ==> staging in made.world.paths)
  {
    AfterOneMore(w, k);
  }

  lemma DeviceStagedOutline(w: World, devicePath: string, staging: string, access: AccessType) returns (w': World)
    requires Consistent(w) && devicePath != ""
    ensures Untouched(w, w')
    ensures !FaultAt(w, 0).Fine? ==>
              DeviceStaged(w, devicePath, staging, access) == Reply(w', Failure(VolumeMountCheckFailed))
    ensures FaultAt(w, 0).Fine? ==>
              DeviceStaged(w, devicePath, staging, access)
              == if Mounted(w, staging) && StackAt(w, staging)[0].device == ResolveLink(w, devicePath)
                    && (w.host.symlinksResolve || FaultAt(w, 1).Fine?)
                 then Reply(w', Success) else Formatted(w', devicePath, staging, access)
    ensures FaultAt(w, 0).Fine? ==> FaultsFrom(w, w', 2) && w'.paths == w.paths
  {
    AfterOneMore(w, 0);
    AfterOneMore(w, 1);
    assert After(w, 0) == w;
    assert ResolveLink(w, devicePath) != "";
    w' := GetDeviceNameFromMount(w, staging).world;
    if FaultAt(w, 0).Fine? {
      w' := EvalSymlinks(w', devicePath).world;
    }
  }

  predicate Ordinary(outcome: Outcome) {
    outcome.Success? || outcome.Failure?
  }

  predicate TargetFree(w: World, target: string) {
    FaultAt(w, 0).Fine? && !Mounted(w, target)
  }

  lemma BlockPublishIsOrdinary(w: World, req: Request)
    requires req.Publish? && req.capability.Some? && req.capability.value.access.Block?
    ensures Ordinary(Published(w, req).outcome)
  {
  }

  lemma MountPublishIsOrdinary(w: World, req: Request)
    requires req.Publish? && req.capability.Some? && req.capability.value.access.MountFs?
    ensures Ordinary(Published(w, req).outcome)
  {
  }

  lemma UnsetPublishIsSilent(w: World, req: Request)
    requires Consistent(w) && req.Publish? && req.capability.Some? && req.capability.value.access.Unset?
    ensures Published(w, req).outcome == if TargetFree(w, req.targetPath) then NoReply
                                         else if FaultAt(w, 0).Fine? then Success
                                         else Failure(MountPointValidateError)
  {
  }

  /** Publishing never crashes; it is silent exactly without an access type on a free target. */
  lemma PublishOutcome(w: World, req: Request)
    requires Consistent(w) && req.Publish? && req.capability.Some?
    ensures Published(w, req).outcome != Crash
    ensures Published(w, req).outcome == NoReply
            <==> req.capability.value.access.Unset? && TargetFree(w, req.targetPath)
  {
    match req.capability.value.access
    case Block => BlockPublishIsOrdinary(w, req);
    case MountFs(_, _) => MountPublishIsOrdinary(w, req);
    case Unset => UnsetPublishIsSilent(w, req);
  }

  /** Staging always replies; it crashes exactly when it comes to mounting without an access type. */
  lemma StageOutcome(w: World, devicePath: string, staging: string, access: AccessType)
    requires Consistent(w)
    ensures Staged(w, devicePath, staging, access).outcome != NoReply
    ensures Staged(w, devicePath, staging, access).outcome == Crash <==>
              && !access.MountFs? && devicePath != ""
              && PassesMountCheck(w, devicePath, staging) && !TakenForStaged(w, devicePath, staging)
  {
    if devicePath != "" {
      var w' := StagedOutline(w, devicePath, staging, access);
    }
  }

  /** Staging a capability without an access type crashes exactly when the request is not
      refused, names a device, passes the mount check, and the path is not taken for
      staged already. */
  lemma CrashExactlyWhen(w: World, req: Request)
    requires Consistent(w)
    ensures Served(w, req).outcome == Crash <==>
              && req.Stage? && Complete(req) && req.capability.value.access.Unset?
              && DevicePathIn(req.context) != ""
              && PassesMountCheck(w, DevicePathIn(req.context), req.stagingPath)
              && !TakenForStaged(w, DevicePathIn(req.context), req.stagingPath)
  {
    RefusedExactlyWhen(req);
    if Complete(req) {
      match req
      case Stage(_, staging, cap, context) => StageOutcome(w, DevicePathIn(context), staging, cap.value.access);
      case Publish(_, _, _, _, _, _) => PublishOutcome(w, req);
      case _ =>
    }
  }

  /** A publish gives neither a reply nor an error exactly when the request is not refused,
      has no access type, and the probe finds the target free. */
  lemma NoReplyExactlyWhen(w: World, req: Request)
    requires Consistent(w)
    ensures Served(w, req).outcome == NoReply <==>
              && req.Publish? && Complete(req) && req.capability.value.access.Unset?
              && TargetFree(w, req.targetPath)
  {
    RefusedExactlyWhen(req);
    if Complete(req) {
      match req
      case Stage(_, staging, cap, context) => StageOutcome(w, DevicePathIn(context), staging, cap.value.access);
      case Publish(_, _, _, _, _, _) => PublishOutcome(w, req);
      case _ =>
    }
  }

  /** A successful stage of a file system adds no mount exactly when the path was taken for
      staged: it carries the device, and the link resolved. */
  lemma StagingMountsExactlyWhen(w: World, c: Call)
    requires Consistent(w) && c.req.Stage? && ForFileSystem(c.req) && Step(w, c).outcome == Success
    ensures StackAt(Step(w, c).world, c.req.stagingPath) == StackAt(w, c.req.stagingPath)
            <==> TakenForStaged(w.(faults := c.faults), DevicePathIn(c.req.context), c.req.stagingPath)
  {
    var loaded, devicePath, staging := w.(faults := c.faults), DevicePathIn(c.req.context), c.req.stagingPath;
    var access := c.req.capability.value.access;
    assert StackAt(loaded, staging) == StackAt(w, staging);
    assert Served(loaded, c.req) == Staged(loaded, devicePath, staging, access);
    var w' := StagedOutline(loaded, devicePath, staging, access);
    FormattedEffect(w', devicePath, staging, access);
  }

  // ---- Witnesses -------------------------------------------------------------------------------

  const NEITHER := VolumeCapability(SingleNodeWriter, Unset)
  const STAGE_NEITHER := Stage("v", "/staging", Some(NEITHER), map[PUBLISH_INFO_DEVICE_PATH := "/dev/vdd"])
  const PLAIN := World(Host({"/dev/vdd"}, map[], false, true), map[], {"/staging", "/target"}, [])

  /** The same volume, neither as a device nor as a file system: staging crashes, publishing
      is silent, and nothing has changed. */
  lemma UnsetAccessTypeIsNotRefused()
    ensures Served(PLAIN, STAGE_NEITHER).outcome == Crash
    ensures Served(PLAIN, Publish("v", "/staging", "/target", Some(NEITHER), map[], false)) == Reply(PLAIN, NoReply)
  {
    RefusedExactlyWhen(Publish("v", "/staging", "/target", Some(NEITHER), map[], false));
    assert DevicePathIn(STAGE_NEITHER.context) == "/dev/vdd";
    CrashExactlyWhen(PLAIN, STAGE_NEITHER);
    assert Consumed(PLAIN) == PLAIN;
  }
}
