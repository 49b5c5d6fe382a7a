/** What one call on the node can do to the mount table, faults included. */
module NodeEffects {
  import opened Common
  import opened Mounter
  import opened NodeServer

  /** Mounts are alike everywhere except at `p`. */
  ghost predicate SameElsewhere(w: World, w': World, p: string) {
    w'.host == w.host && forall q | q != p :: StackAt(w', q) == StackAt(w, q)
  }

  ghost predicate SameMounts(w: World, w': World) {
    w'.host == w.host && forall q :: StackAt(w', q) == StackAt(w, q)
  }

  /** A look that leaves the node as it was. */
  ghost predicate Untouched(w: World, w': World) {
    Consistent(w') && SameMounts(w, w')
  }

  lemma FindKeeps(w: World, devicePath: string)
    requires Consistent(w)
    ensures Untouched(w, FindDevicePathSource(w, devicePath).world)
    ensures FindDevicePathSource(w, devicePath).text == devicePath
  {
  }

  /** Looking for a path, and making it if it is not there. */
  lemma EnsurePathKeeps(w: World, p: string)
    requires Consistent(w)
    ensures var look := PathExists(w, p);
            && Untouched(w, look.world)
            && Untouched(w, MakePath(look.world, p).world)
  {
  }

  // ---- Bind mounting with rollback ------------------------------------------------

  /** One more mount on top, of the same source and device. */
  predicate PushedOnto(before: seq<MountRecord>, after: seq<MountRecord>, record: MountRecord) {
    && |after| == |before| + 1
    && after[..|before|] == before
    && after[|before|] == record.(options := after[|before|].options)
  }

  lemma PushEffect(w: World, record: MountRecord, target: string)
    requires Consistent(w)
    ensures var done := PushMount(w, record, target);
            var before, after := StackAt(w, target), StackAt(done.world, target);
            && Consistent(done.world)
            && SameElsewhere(w, done.world, target)
            && (!done.failed ==> after == before + [record])
            && (done.failed ==> after == before || PushedOnto(before, after, record))
  {
  }

  predicate RollbackOutcome(outcome: Outcome) {
    && outcome.Failure?
    && (outcome.error.CreateMountTargetFailed? || outcome.error.MountPointValidateError?
        || outcome.error.UnmountFailed?)
  }

  lemma ProbedAgainEffect(w: World, target: string)
    requires Consistent(w)
    ensures var reply := ProbedAgain(w, target);
            && KeepsMounts(w, reply.world, target)
            && (reply.outcome == Failure(CreateMountTargetFailed) ==> !Mounted(reply.world, target))
            && RollbackOutcome(reply.outcome)
  {
    RemoveSummary(IsLikelyNotMountPoint(w, target).world, target);
  }

  lemma RollbackEffect(w: World, target: string)
    requires Consistent(w)
    ensures var reply := RolledBack(w, target);
            && Consistent(reply.world)
            && SameElsewhere(w, reply.world, target)
            && (StackAt(reply.world, target) == StackAt(w, target)
                || StackAt(reply.world, target) == Popped(StackAt(w, target)))
            && (reply.outcome == Failure(CreateMountTargetFailed) ==> !Mounted(reply.world, target))
            && RollbackOutcome(reply.outcome)
  {
    var probe := IsLikelyNotMountPoint(w, target);
    assert Untouched(w, probe.world);
    if probe.error == NoError {
      if probe.yes {
        RemoveSummary(probe.world, target);
      } else {
        UnmountSummary(probe.world, target);
        ProbedAgainEffect(Unmount(probe.world, target).world, target);
      }
    }
  }

  /** Success leaves the target bind-mounted from the staging path, with the options
      asked for; the result that reports a clean failure leaves it unmounted; a mount
      can be left behind only by the two results that say the cleanup went wrong. */
  lemma RollbackGuarantee(w: World, staging: string, target: string, fsType: string, options: seq<string>)
    requires Consistent(w) && !Mounted(w, target)
    ensures var reply := MountProcessed(w, staging, target, fsType, options);
            && Consistent(reply.world)
            && SameElsewhere(w, reply.world, target)
            && (reply.outcome == Success ==>
                  StackAt(reply.world, target) == [MountRecord(staging, Backing(w, staging), fsType, options)])
            && (reply.outcome == Failure(CreateMountTargetFailed) ==> !Mounted(reply.world, target))
            && (reply.outcome != Success && Mounted(reply.world, target) ==>
                  && (reply.outcome == Failure(MountPointValidateError) || reply.outcome == Failure(UnmountFailed))
                  && |StackAt(reply.world, target)| == 1
                  && StackAt(reply.world, target)[0].source == staging
                  && StackAt(reply.world, target)[0].device == Backing(w, staging))
  {
    var made := MakePath(w, target);
    assert Untouched(w, made.world);
    assert Backing(made.world, staging) == Backing(w, staging);
    if !made.failed {
      PushEffect(made.world, MountRecord(staging, Backing(w, staging), fsType, options), target);
      var mounted := Mount(made.world, staging, target, fsType, options);
      if mounted.failed {
        RollbackEffect(mounted.world, target);
      }
    }
  }

  /** For a block device there is no unmounting: a mount left behind is reported, but
      stays. Only a failed removal of the target can mean that. */
  lemma BlockGuarantee(w: World, devicePath: string, target: string, options: seq<string>)
    requires Consistent(w) && !Mounted(w, target)
    ensures var reply := BlockProcessed(w, devicePath, target, options);
            && Consistent(reply.world)
            && SameElsewhere(w, reply.world, target)
            && (reply.outcome == Success ==>
                  StackAt(reply.world, target) == [MountRecord(devicePath, Backing(w, devicePath), "", options)])
            && (reply.outcome != Success && Mounted(reply.world, target) ==>
                  && reply.outcome == Failure(RemoveMountTargetFailed)
                  && |StackAt(reply.world, target)| == 1
                  && StackAt(reply.world, target)[0].source == devicePath
                  && StackAt(reply.world, target)[0].device == Backing(w, devicePath))
  {
    if devicePath != "" {
      var source := FindDevicePathSource(w, devicePath);
      FindKeeps(w, devicePath);
      if !source.failed {
        var dir := PathExists(source.world, DirOf(target));
        EnsurePathKeeps(source.world, DirOf(target));
        if dir.error == NoError {
          var made := if dir.yes then Done(dir.world, false) else MakePath(dir.world, DirOf(target));
          assert Untouched(w, made.world);
          if !made.failed {
            BlockMountEffect(made.world, devicePath, target, options);
          }
        }
      }
    }
  }

  lemma BlockMountEffect(w: World, source: string, target: string, options: seq<string>)
    requires Consistent(w) && !Mounted(w, target)
    ensures var reply := BlockMounted(w, source, target, options);
            && Consistent(reply.world)
            && SameElsewhere(w, reply.world, target)
            && (reply.outcome == Success ==>
                  StackAt(reply.world, target) == [MountRecord(source, Backing(w, source), "", options)])
            && (reply.outcome != Success && Mounted(reply.world, target) ==>
                  && reply.outcome == Failure(RemoveMountTargetFailed)
                  && |StackAt(reply.world, target)| == 1
                  && StackAt(reply.world, target)[0].source == source
                  && StackAt(reply.world, target)[0].device == Backing(w, source))
  {
    var file := MakePath(w, target);
    assert Untouched(w, file.world);
    assert Backing(file.world, source) == Backing(w, source);
    if file.failed {
      RemoveSummary(file.world, target);
    } else {
      PushEffect(file.world, MountRecord(source, Backing(w, source), "", options), target);
      var mounted := Mount(file.world, source, target, "", options);
      RemoveSummary(mounted.world, target);
    }
  }

  // ---- Publishing ---------------------------------------------------------------------

  function PublishSource(req: Request): string
    requires req.Publish? && req.capability.Some?
  {
    if req.capability.value.access.Block? then DevicePathIn(req.context) else req.stagingPath
  }

  /** The mount a publish request asks for, as things stand. */
  function WantedMount(w: World, req: Request): MountRecord
    requires req.Publish? && req.capability.Some?
  {
    MountRecord(PublishSource(req), Backing(w, PublishSource(req)), "",
                if req.readonly then ["bind", "ro"] else ["bind"])
  }

  /** Publishing changes mounts at the target only, and only by putting the first mount
      there, from the source it was asked for. */
  ghost predicate PublishStep(w: World, req: Request, reply: Reply)
    requires req.Publish?
  {
    var before, after := StackAt(w, req.targetPath), StackAt(reply.world, req.targetPath);
    && Consistent(reply.world)
    && SameElsewhere(w, reply.world, req.targetPath)
    && (after == before
        || (&& before == [] && |after| == 1 && req.capability.Some?
            && after[0].source == PublishSource(req)
            && after[0].device == Backing(w, PublishSource(req))))
    && (reply.outcome == Success ==> after != [])
    && (reply.outcome == Success && before == [] ==>
          req.capability.Some? && after == [WantedMount(w, req)])
  }

  lemma PublishEffect(w: World, req: Request)
    requires Consistent(w) && req.Publish?
    ensures PublishStep(w, req, Served(w, req))
  {
    if Objection(req).None? {
      var probe := IsLikelyNotMountPoint(w, req.targetPath);
      assert Untouched(w, probe.world);
      if (probe.error == NoError || probe.error == NotExist) && probe.yes {
        assert Backing(probe.world, PublishSource(req)) == Backing(w, PublishSource(req));
        match req.capability.value.access {
          case Block =>
            BlockGuarantee(probe.world, DevicePathIn(req.context), req.targetPath, PublishOptions(req.readonly));
          case MountFs(_, _) =>
            RollbackGuarantee(probe.world, req.stagingPath, req.targetPath, "", PublishOptions(req.readonly));
          case Unset =>
        }
      }
    }
  }

  // ---- Staging -------------------------------------------------------------------------

  /** Recognised as staged: the oldest mount there is the device, and its link resolves. */
  predicate RecognisedAsStaged(w: World, devicePath: string, staging: string) {
    && w.host.symlinksResolve
    && Mounted(w, staging)
    && StackAt(w, staging)[0].device == ResolveLink(w, devicePath)
  }

  /** The mount a stage request asks for: the file system type given, or else ext4; the flags
      given, "nouuid" for xfs, and "defaults". */
  function StagedMount(w: World, devicePath: string, access: AccessType): MountRecord
    requires access.MountFs?
  {
    MountRecord(devicePath, ResolveLink(w, devicePath),
                if access.fsType == "" then "ext4" else access.fsType,
                access.flags + (if access.fsType == "xfs" then ["nouuid"] else []) + ["defaults"])
  }

  lemma FormattedMount(w: World, devicePath: string, access: AccessType)
    requires access.MountFs?
    ensures var fsType := if access.fsType != "" then access.fsType else DEFAULT_FS_TYPE;
            MountRecord(devicePath, ResolveLink(w, devicePath), fsType,
                        CollectedOptions(fsType, access.flags) + ["defaults"])
            == StagedMount(w, devicePath, access)
  {
    assert "ext4"[0] != "xfs"[0];
    assert access.flags + [] == access.flags;
  }

  lemma FormattedEffect(w: World, devicePath: string, staging: string, access: AccessType)
    requires Consistent(w)
    ensures var reply := Formatted(w, devicePath, staging, access);
            && Consistent(reply.world)
            && SameElsewhere(w, reply.world, staging)
            && (StackAt(reply.world, staging) == StackAt(w, staging)
                || (&& |StackAt(reply.world, staging)| == |StackAt(w, staging)| + 1
                    && StackAt(reply.world, staging)[..|StackAt(w, staging)|] == StackAt(w, staging)
                    && StackAt(reply.world, staging)[|StackAt(w, staging)|].source == devicePath
                    && StackAt(reply.world, staging)[|StackAt(w, staging)|].device == ResolveLink(w, devicePath)))
            && (reply.outcome == Success ==>
                  access.MountFs?
                  && StackAt(reply.world, staging) == StackAt(w, staging) + [StagedMount(w, devicePath, access)])
  {
    if access.MountFs? {
      var fsType := if access.fsType != "" then access.fsType else DEFAULT_FS_TYPE;
      var options := CollectedOptions(fsType, access.flags) + ["defaults"];
      FormattedMount(w, devicePath, access);
      PushEffect(w, StagedMount(w, devicePath, access), staging);
    }
  }

  /** Staging changes mounts at the staging path only, by at most one mount of the
      device on top; a path recognised as staged gets none. */
  ghost predicate StageStep(w: World, req: Request, reply: Reply)
    requires req.Stage?
  {
    var before, after := StackAt(w, req.stagingPath), StackAt(reply.world, req.stagingPath);
    && Consistent(reply.world)
    && SameElsewhere(w, reply.world, req.stagingPath)
    && (after == before
        || (&& !RecognisedAsStaged(w, DevicePathIn(req.context), req.stagingPath)
            && |after| == |before| + 1
            && after[..|before|] == before
            && after[|before|].source == DevicePathIn(req.context)
            && after[|before|].device == ResolveLink(w, DevicePathIn(req.context))))
    && (reply.outcome == Success ==> req.capability.Some?)
    && (reply.outcome == Success && !req.capability.value.access.Block? ==>
          after != [] && (after == before ==> before[0].device == ResolveLink(w, DevicePathIn(req.context))))
    && (reply.outcome == Success && after != before ==>
          req.capability.value.access.MountFs?
          && after == before + [StagedMount(w, DevicePathIn(req.context), req.capability.value.access)])
  }

  /** A raw block volume is not staged at all. */
  lemma StagingBlockChangesNothing(w: World, req: Request)
    requires req.Stage? && req.capability.Some? && req.capability.value.access.Block?
    ensures Served(w, req).world == w
    ensures Complete(req) ==> Served(w, req).outcome == Success
  {
    RefusedExactlyWhen(req);
  }

  /** Staging a device, whichever of its steps fail. */
  ghost predicate DeviceStep(w: World, devicePath: string, staging: string, access: AccessType, reply: Reply) {
    var before, after := StackAt(w, staging), StackAt(reply.world, staging);
    && Consistent(reply.world)
    && SameElsewhere(w, reply.world, staging)
    && (after == before
        || (&& !RecognisedAsStaged(w, devicePath, staging)
            && |after| == |before| + 1
            && after[..|before|] == before
            && after[|before|].source == devicePath
            && after[|before|].device == ResolveLink(w, devicePath)))
    && (reply.outcome == Success ==>
          after != [] && (after == before ==> before[0].device == ResolveLink(w, devicePath)))
    && (reply.outcome == Success && after != before ==>
          access.MountFs? && after == before + [StagedMount(w, devicePath, access)])
  }

  lemma StageEffect(w: World, req: Request)
    requires Consistent(w) && req.Stage?
    ensures StageStep(w, req, Served(w, req))
  {
    if Objection(req).None? && !req.capability.value.access.Block? {
      StagedEffect(w, DevicePathIn(req.context), req.stagingPath, req.capability.value.access);
    }
  }

  lemma StagedEffect(w: World, devicePath: string, staging: string, access: AccessType)
    requires Consistent(w)
    ensures DeviceStep(w, devicePath, staging, access, Staged(w, devicePath, staging, access))
  {
    if devicePath != "" {
      var source := FindDevicePathSource(w, devicePath);
      FindKeeps(w, devicePath);
      if !source.failed {
        var look := PathExists(source.world, staging);
        EnsurePathKeeps(source.world, staging);
        if look.error == NoError {
          var made := if look.yes then Done(look.world, false) else MakePath(look.world, staging);
          assert Untouched(w, made.world);
          if !made.failed {
            DeviceStagedEffect(made.world, devicePath, staging, access);
            DeviceStepFrom(w, made.world, devicePath, staging, access,
                           DeviceStaged(made.world, devicePath, staging, access));
          }
        }
      }
    }
  }

  lemma DeviceStepFrom(w: World, w': World, devicePath: string, staging: string, access: AccessType, reply: Reply)
    requires Untouched(w, w') && DeviceStep(w', devicePath, staging, access, reply)
    ensures DeviceStep(w, devicePath, staging, access, reply)
  {
  }

  lemma DeviceStagedEffect(w: World, devicePath: string, staging: string, access: AccessType)
    requires Consistent(w) && devicePath != ""
    ensures DeviceStep(w, devicePath, staging, access, DeviceStaged(w, devicePath, staging, access))
  {
    var device := GetDeviceNameFromMount(w, staging);
    var target := EvalSymlinks(device.world, devicePath);
    assert Untouched(w, target.world);
    assert ResolveLink(w, devicePath) != "";
    if !device.failed && (target.failed || device.text != target.text) {
      FormattedEffect(target.world, devicePath, staging, access);
    }
  }

  // ---- Cleaning up ----------------------------------------------------------------------

  function CleanedPath(req: Request): string
    requires req.Unpublish? || req.Unstage?
  {
    if req.Unpublish? then req.targetPath else req.stagingPath
  }

  /** Unpublishing and unstaging take at most the topmost mount of their own path, and
      succeed only when nothing is mounted there any more. */
  ghost predicate CleanStep(w: World, req: Request, reply: Reply)
    requires req.Unpublish? || req.Unstage?
  {
    var before, after := StackAt(w, CleanedPath(req)), StackAt(reply.world, CleanedPath(req));
    && Consistent(reply.world)
    && SameElsewhere(w, reply.world, CleanedPath(req))
    && (after == before || after == Popped(before))
    && (reply.outcome == Success ==> after == [])
  }

  lemma CleanEffect(w: World, req: Request)
    requires Consistent(w) && (req.Unpublish? || req.Unstage?)
    ensures CleanStep(w, req, Served(w, req))
  {
    if Objection(req).None? {
      CleanupSummary(w, CleanedPath(req));
    }
  }
}
