/** What each node call answers, by the fields of its request and the faults it meets. */
module NodeAnswers {
  import opened Common
  import opened Mounter
  import opened NodeServer
  import opened NodeEffects
  import opened NodeOutcomes

  // ---- Refusals ------------------------------------------------------------------------

  /** The first field that is wrong decides what the request is refused with, and nothing
      is looked at. */
  lemma RefusalAnswers(w: World, req: Request)
    ensures req.volumeID == "" ==> Served(w, req) == Reply(w, Failure(EmptyVolumeID))
    ensures req.Unpublish? && req.volumeID != "" && req.targetPath == "" ==>
              Served(w, req) == Reply(w, Failure(NoTargetPath))
    ensures !req.Unpublish? && req.volumeID != "" && req.stagingPath == "" ==>
              Served(w, req) == Reply(w, Failure(NoStagingTargetPath))
    ensures req.Publish? && req.volumeID != "" && req.stagingPath != "" && req.targetPath == "" ==>
              Served(w, req) == Reply(w, Failure(NoTargetPath))
    ensures Placed(req) && req.capability.None? ==> Served(w, req) == Reply(w, Failure(NoVolumeCapabilities))
    ensures Placed(req) && req.capability.Some? && req.capability.value.mode != SingleNodeWriter ==>
              Served(w, req) == Reply(w, Failure(if req.Stage? && req.capability.value.mode == UnknownMode
                                                 then NoVolumeCapabilities else VolumeCapabilitiesNotSupported))
  {
    if Placed(req) && req.capability.Some? {
      SupportedMode(req.capability.value);
    }
  }

  /** A stage or a publish that names its volume and its paths. */
  predicate Placed(req: Request) {
    && (req.Stage? || req.Publish?) && req.volumeID != "" && req.stagingPath != ""
    && (req.Publish? ==> req.targetPath != "")
  }

  // ---- Publishing ----------------------------------------------------------------------

  /** A publish that is not refused goes by its probe: a probe that fails is reported, a
      mounted target is a success, and neither changes a mount. */
  lemma PublishProbe(w: World, req: Request)
    requires Consistent(w) && req.Publish? && Complete(req)
    ensures !FaultAt(w, 0).Fine? ==> Served(w, req) == Reply(Consumed(w), Failure(MountPointValidateError))
    ensures FaultAt(w, 0).Fine? && Mounted(w, req.targetPath) ==> Served(w, req) == Reply(Consumed(w), Success)
  {
    RefusedExactlyWhen(req);
  }

  /** What a bind mount answers, by the faults met in turn: making the path, mounting, and
      then the probe, the unmount and the second probe of the cleanup. */
  function BindAnswer(w: World): Outcome {
    if !FaultAt(w, 0).Fine? then Failure(TargetPathCreateFailed)
    else if FaultAt(w, 1).Fine? then Success
    else if !FaultAt(w, 2).Fine? then Failure(MountPointValidateError)
    else if !FaultAt(w, 1).FailAfter? then Failure(CreateMountTargetFailed)
    else if !FaultAt(w, 3).Fine? then Failure(UnmountFailed)
    else if !FaultAt(w, 4).Fine? then Failure(MountPointValidateError)
    else Failure(CreateMountTargetFailed)
  }

  /** On a free target the bind mount answers just that; it leaves a mount behind exactly on
      success, or when the mount was left and the cleanup did not come to unmount it. */
  lemma BindAnswers(w: World, staging: string, target: string, options: seq<string>)
    requires Consistent(w) && !Mounted(w, target)
    ensures MountProcessed(w, staging, target, "", options).outcome == BindAnswer(w)
    ensures Mounted(MountProcessed(w, staging, target, "", options).world, target)
            <==> (&& FaultAt(w, 0).Fine?
                  && (FaultAt(w, 1).Fine?
                      || (&& FaultAt(w, 1).FailAfter?
                          && (!FaultAt(w, 2).Fine? || FaultAt(w, 3).Fail? || FaultAt(w, 3).Corrupt?))))
  {
    var made := MakePath(w, target);
    if !made.failed {
      var mounted := Mount(made.world, staging, target, "", options);
      assert FaultsFrom(w, made.world, 1);
      assert FaultsFrom(w, mounted.world, 2);
      if mounted.failed {
        RollbackAnswers(mounted.world, target);
      }
    }
  }

  lemma RollbackAnswers(w: World, target: string)
    requires Consistent(w) && target in w.paths && |StackAt(w, target)| <= 1
    ensures RolledBack(w, target).outcome
            == if !FaultAt(w, 0).Fine? then Failure(MountPointValidateError)
               else if !Mounted(w, target) then Failure(CreateMountTargetFailed)
               else if !FaultAt(w, 1).Fine? then Failure(UnmountFailed)
               else if !FaultAt(w, 2).Fine? then Failure(MountPointValidateError)
               else Failure(CreateMountTargetFailed)
    ensures Mounted(RolledBack(w, target).world, target)
            <==> Mounted(w, target) && (!FaultAt(w, 0).Fine? || FaultAt(w, 1).Fail? || FaultAt(w, 1).Corrupt?)
  {
    var probe := IsLikelyNotMountPoint(w, target);
    assert FaultsFrom(w, probe.world, 1);
    if FaultAt(w, 0).Fine? && Mounted(w, target) {
      UnmountAnswers(probe.world, target);
    } else {
      RemoveSummary(probe.world, target);
    }
  }

  /** The unmount of a lone mount, and the probe that follows it. */
  lemma UnmountAnswers(w: World, target: string)
    requires Consistent(w) && target in w.paths && |StackAt(w, target)| == 1
    ensures var unmounted := Unmount(w, target);
            && (unmounted.failed <==> !FaultAt(w, 0).Fine?)
            && (Mounted(unmounted.world, target) <==> FaultAt(w, 0).Fail? || FaultAt(w, 0).Corrupt?)
            && (FaultAt(w, 0).Fine? ==>
                  && ProbedAgain(unmounted.world, target).outcome
                     == Failure(if FaultAt(w, 1).Fine? then CreateMountTargetFailed else MountPointValidateError)
                  && !Mounted(ProbedAgain(unmounted.world, target).world, target))
  {
    var unmounted := Unmount(w, target);
    assert FaultsFrom(w, unmounted.world, 1);
    RemoveSummary(IsLikelyNotMountPoint(unmounted.world, target).world, target);
  }

  /** What binding a raw block device answers once its directory is there: the making of the
      file, the mount, and the removal that follows a failed one. */
  lemma BlockBindAnswers(w: World, source: string, target: string, options: seq<string>)
    requires Consistent(w) && !Mounted(w, target)
    ensures BlockMounted(w, source, target, options).outcome
            == if !FaultAt(w, 0).Fine? then
                 Failure(if FaultAt(w, 1).Fine? && (target in w.paths || FaultAt(w, 0).FailAfter?)
                         then CreateMountTargetFailed else RemoveMountTargetFailed)
               else if FaultAt(w, 1).Fine? then Success
               else if FaultAt(w, 1).FailAfter? || !FaultAt(w, 2).Fine? then Failure(RemoveMountTargetFailed)
               else Failure(MountFailed)
  {
    var file := MakePath(w, target);
    assert FaultsFrom(w, file.world, 1);
    if !file.failed {
      var mounted := Mount(file.world, source, target, "", options);
      assert FaultsFrom(w, mounted.world, 2);
    }
  }

  /** And before that: the device, its second look, and the directory. */
  lemma BlockAnswers(w: World, devicePath: string, target: string, options: seq<string>) returns (w': World)
    requires Consistent(w)
    ensures devicePath == "" ==> BlockProcessed(w, devicePath, target, options) == Reply(w, Failure(EmptyDevicePath))
    ensures devicePath != "" ==> Untouched(w, w') && FaultsFrom(w, w', MountCheckAt(w, devicePath, DirOf(target)))
    ensures devicePath != "" ==>
              BlockProcessed(w, devicePath, target, options)
              == if Looks(w, devicePath) == 2 && !FaultAt(w, 1).Fine? then
                   Reply(After(w, 2), Failure(DevicePathFindFailed))
                 else if !FaultAt(w, Looks(w, devicePath)).Fine? then
                   Reply(After(w, Looks(w, devicePath) + 1), Failure(TargetPathCheckFailed))
                 else if !There(w, DirOf(target)) && !FaultAt(w, Looks(w, devicePath) + 1).Fine? then
                   Reply(w', Failure(TargetPathCreateFailed))
                 else BlockMounted(w', devicePath, target, options)
  {
    w' := w;
    if devicePath != "" {
      DeviceFound(w, devicePath);
      var k := Looks(w, devicePath);
      AfterOneMore(w, k);
      MadeFaults(w, k + 1, DirOf(target));
      var look := After(w, k + 1);
      w' := if There(w, DirOf(target)) then look else MakePath(look, DirOf(target)).world;
    }
  }

  // ---- Staging ----------------------------------------------------------------------------

  /** What staging a file system answers, by the faults met in turn: the first call to go
      wrong up to the mount check; success if the path is taken for staged; else mounting
      and growing. */
  lemma StageAnswers(w: World, req: Request)
    requires Consistent(w) && req.Stage? && Complete(req) && req.capability.value.access.MountFs?
    requires req.stagingPath !in w.host.devices
    ensures var devicePath, staging := DevicePathIn(req.context), req.stagingPath;
            var at := MountCheckAt(w, devicePath, staging);
            Served(w, req).outcome
            == if devicePath == "" then Failure(EmptyDevicePath)
               else if !PassesMountCheck(w, devicePath, staging) then Failure(EarlyFailure(w, devicePath, staging))
               else if TakenForStaged(w, devicePath, staging) then Success
               else if !FaultAt(w, at + 2).Fine? then Failure(FormatAndMountFailed)
               else if !FaultAt(w, at + 3).Fine? then Failure(FileSystemResizeFailed)
               else Success
  {
    RefusedExactlyWhen(req);
    var devicePath, staging := DevicePathIn(req.context), req.stagingPath;
    if devicePath != "" {
      var access := req.capability.value.access;
      var w' := StagedOutline(w, devicePath, staging, access);
      FormattedAnswers(w', devicePath, staging, access);
      assert PassesMountCheck(w, devicePath, staging) ==>
          FaultAt(w', 0) == FaultAt(w, MountCheckAt(w, devicePath, staging) + 2)
          && FaultAt(w', 1) == FaultAt(w, MountCheckAt(w, devicePath, staging) + 3);
    }
  }

  lemma FormattedAnswers(w: World, devicePath: string, staging: string, access: AccessType)
    requires access.MountFs?
    ensures staging in w.paths ==>
              Formatted(w, devicePath, staging, access).outcome
              == if !FaultAt(w, 0).Fine? then Failure(FormatAndMountFailed)
                 else if !FaultAt(w, 1).Fine? then Failure(FileSystemResizeFailed)
                 else Success
  {
  }

  // ---- Options and directories ----------------------------------------------------------------

  /** A bind mount is read-only exactly when asked to be. */
  lemma ReadOnlyExactlyWhenAsked(w: World, req: Request)
    requires Consistent(w) && req.Publish? && !Mounted(w, req.targetPath) && Served(w, req).outcome == Success
    ensures var stack := StackAt(Served(w, req).world, req.targetPath);
            && |stack| == 1 && "bind" in stack[0].options
            && ("ro" in stack[0].options <==> req.readonly)
  {
    PublishEffect(w, req);
    assert "bind" != "ro" by {
      assert |"bind"| != |"ro"|;
    }
  }

  /** The directory of a path is what comes before its last segment. */
  lemma {:induction false} DirOfSegment(dir: string, name: string)
    requires '/' !in name
    ensures DirOf(dir + "/" + name) == if dir == "" then "/" else dir
  {
    var path := dir + "/" + name;
    if name == "" {
      assert path[..|path| - 1] == dir;
    } else {
      var front := name[..|name| - 1];
      assert path[..|path| - 1] == dir + "/" + front;
      assert path[|path| - 1] == name[|name| - 1] && name[|name| - 1] in name;
      DirOfSegment(dir, front);
    }
  }

  /** A path of one segment is in the working directory. */
  lemma {:induction false} DirOfBareName(name: string)
    requires '/' !in name
    ensures DirOf(name) == "."
  {
    if name != "" {
      assert name[|name| - 1] in name;
      DirOfBareName(name[..|name| - 1]);
    }
  }
}
