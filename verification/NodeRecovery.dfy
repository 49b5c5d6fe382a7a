/** Recovery after faulty histories, and the three ways in which a success can mean less
    than it seems. */
module NodeRecovery {
  import opened Common
  import opened Mounter
  import opened NodeServer
  import opened NodeEffects
  import opened NodeHistories

  /** A stage and a publish request for the same file system volume, and paths that are
      not confused with each other or with device nodes. */
  predicate Matching(w: World, stage: Request, publish: Request) {
    && stage.Stage? && ForFileSystem(stage) && DevicePathIn(stage.context) != ""
    && publish.Publish? && ForFileSystem(publish)
    && publish.stagingPath == stage.stagingPath
    && publish.targetPath != stage.stagingPath
    && stage.stagingPath !in w.host.devices
  }

  function DeviceOf(w: World, stage: Request): string
    requires stage.Stage?
  {
    ResolveLink(w, DevicePathIn(stage.context))
  }

  /** The world after one stage and one publish that meet no fault. */
  function Up(w: World, stage: Request, publish: Request): World {
    Run(w, [Call(stage, []), Call(publish, [])])
  }

  function Down(w: World, unpublish: Request, unstage: Request): World {
    Run(w, [Call(unpublish, []), Call(unstage, [])])
  }

  lemma RunPair(w: World, a: Call, b: Call)
    ensures Run(w, [a, b]) == Step(Step(w, a).world, b).world
  {
    assert [a, b][..1] == [a] && [a][..0] == [];
    assert Run(w, []) == w;
    assert Run(w, [a]) == Step(w, a).world;
  }

  lemma UpFromSingleMounts(w: World, stage: Request, publish: Request)
    requires Consistent(w) && w.faults == [] && Matching(w, stage, publish)
    requires HoldsOnly(w, stage.stagingPath, DeviceOf(w, stage))
    requires ExposesOnly(w, publish.targetPath, stage.stagingPath, DeviceOf(w, stage))
    ensures UpSucceeds(w, stage, publish)
  {
    var device, staged := DeviceOf(w, stage), Step(w, Call(stage, []));
    StageLeavesDevice(w, stage, device);
    PublishLeavesDevice(staged.world, publish, device);
    RunPair(w, Call(stage, []), Call(publish, []));
  }

  lemma StageLeavesDevice(w: World, stage: Request, device: string)
    requires Consistent(w) && w.faults == []
    requires stage.Stage? && ForFileSystem(stage) && DevicePathIn(stage.context) != ""
    requires stage.stagingPath !in w.host.devices && device == DeviceOf(w, stage)
    requires HoldsOnly(w, stage.stagingPath, device)
    ensures var staged := Step(w, Call(stage, []));
            && staged.outcome == Success && staged.world.faults == []
            && Consistent(staged.world) && SameElsewhere(w, staged.world, stage.stagingPath)
            && Mounted(staged.world, stage.stagingPath) && HoldsOnly(staged.world, stage.stagingPath, device)
  {
    StageFaultFree(w, stage);
    StepEffect(w, Call(stage, []));
  }

  lemma PublishLeavesDevice(w: World, publish: Request, device: string)
    requires Consistent(w) && w.faults == []
    requires publish.Publish? && ForFileSystem(publish)
    requires Mounted(w, publish.stagingPath) && HoldsOnly(w, publish.stagingPath, device)
    requires ExposesOnly(w, publish.targetPath, publish.stagingPath, device)
    ensures var published := Step(w, Call(publish, []));
            && published.outcome == Success
            && SameElsewhere(w, published.world, publish.targetPath)
            && Mounted(published.world, publish.targetPath)
            && ExposesOnly(published.world, publish.targetPath, publish.stagingPath, device)
  {
    PublishFaultFree(w, publish);
    StepEffect(w, Call(publish, []));
    AddedExposesDevice(w, publish, Step(w, Call(publish, [])), device);
  }

  lemma AddedExposesDevice(w: World, publish: Request, reply: Reply, device: string)
    requires publish.Publish? && ForFileSystem(publish) && CallStep(w, publish, reply)
    requires var before := StackAt(w, publish.targetPath);
             StackAt(reply.world, publish.targetPath) == if before != [] then before else [WantedMount(w, publish)]
    requires Mounted(w, publish.stagingPath) && HoldsOnly(w, publish.stagingPath, device)
    requires ExposesOnly(w, publish.targetPath, publish.stagingPath, device)
    ensures SameElsewhere(w, reply.world, publish.targetPath) && Mounted(reply.world, publish.targetPath)
    ensures ExposesOnly(reply.world, publish.targetPath, publish.stagingPath, device)
  {
  }

  /** One stage and one publish without faults both succeed, and leave the device mounted
      once at the staging path and once, through it, at the target. No other path's
      mounts change. */
  ghost predicate UpSucceeds(w: World, stage: Request, publish: Request)
    requires Matching(w, stage, publish)
  {
    var staging, target, device := stage.stagingPath, publish.targetPath, DeviceOf(w, stage);
    var staged, after := Step(w, Call(stage, [])), Up(w, stage, publish);
    && staged.outcome == Success
    && Step(staged.world, Call(publish, [])).outcome == Success
    && Mounted(after, staging) && HoldsOnly(after, staging, device)
    && Mounted(after, target) && ExposesOnly(after, target, staging, device)
    && (forall q | q != staging && q != target :: StackAt(after, q) == StackAt(w, q))
  }

  /** Whatever went wrong before, staging and publishing again puts everything right. */
  lemma RecoveryUp(w: World, h: seq<Call>, stage: Request, publish: Request)
    requires Consistent(w) && w.faults == [] && w.host.symlinksResolve && Matching(w, stage, publish)
    requires DedicatedTo(w, h, stage.stagingPath, DeviceOf(w, stage))
    requires PublishesInOrder(w, h, stage.stagingPath, publish.targetPath)
    requires HoldsOnly(w, stage.stagingPath, DeviceOf(w, stage))
    requires ExposesOnly(w, publish.targetPath, stage.stagingPath, DeviceOf(w, stage))
    ensures Matching(Run(w, h), stage, publish)
    ensures UpSucceeds(Run(w, h), stage, publish)
  {
    StagingDepth(w, h, stage.stagingPath, DeviceOf(w, stage));
    TargetBacking(w, h, stage.stagingPath, publish.targetPath, DeviceOf(w, stage));
    RunIsIdle(w, h);
    UpFromSingleMounts(Run(w, h), stage, publish);
  }

  /** The same for a caller that goes by the answers it has had. */
  lemma RecoveryUpInLifecycle(w: World, h: seq<Call>, stage: Request, publish: Request)
    requires Consistent(w) && w.faults == [] && w.host.symlinksResolve && Matching(w, stage, publish)
    requires DedicatedTo(w, h, stage.stagingPath, DeviceOf(w, stage))
    requires FollowsLifecycle(w, h, stage.stagingPath, publish.targetPath)
    requires HoldsOnly(w, stage.stagingPath, DeviceOf(w, stage))
    requires ExposesOnly(w, publish.targetPath, stage.stagingPath, DeviceOf(w, stage))
    ensures Matching(Run(w, h), stage, publish)
    ensures UpSucceeds(Run(w, h), stage, publish)
  {
    LifecycleIsInOrder(w, h, stage.stagingPath, publish.targetPath);
    RecoveryUp(w, h, stage, publish);
  }

  /** A stage and a publish request for the same raw block volume. */
  predicate MatchingBlock(stage: Request, publish: Request) {
    && stage.Stage? && Complete(stage) && stage.capability.value.access.Block?
    && publish.Publish? && Complete(publish) && publish.capability.value.access.Block?
    && publish.context == stage.context && DevicePathIn(stage.context) != ""
    && publish.targetPath != DevicePathIn(stage.context)
  }

  /** The same for a raw block volume: whatever went wrong before, and whether or not links
      resolve, a stage and a publish leave the device at the target, once, and change
      nothing else. */
  lemma RecoveryUpBlock(w: World, h: seq<Call>, stage: Request, publish: Request)
    requires Consistent(w) && w.faults == [] && MatchingBlock(stage, publish)
    requires PublishesDevice(h, publish.targetPath, DevicePathIn(stage.context))
    requires !Mounted(w, DevicePathIn(stage.context))
    requires ExposesOnly(w, publish.targetPath, DevicePathIn(stage.context), DeviceOf(w, stage))
    ensures UpSucceedsBlock(Run(w, h), stage, publish)
  {
    var devicePath, now := DevicePathIn(stage.context), Run(w, h);
    BlockBacking(w, h, publish.targetPath, devicePath);
    RunIsIdle(w, h);
    StagingBlockChangesNothing(now, stage);
    assert now.(faults := []) == now;
    BlockPublishFaultFree(now, publish);
    StepEffect(now, Call(publish, []));
    RunPair(now, Call(stage, []), Call(publish, []));
  }

  ghost predicate UpSucceedsBlock(w: World, stage: Request, publish: Request)
    requires MatchingBlock(stage, publish)
  {
    var target, devicePath, device := publish.targetPath, DevicePathIn(stage.context), DeviceOf(w, stage);
    var after := Up(w, stage, publish);
    && Step(w, Call(stage, [])) == Reply(w, Success)
    && Step(w, Call(publish, [])).outcome == Success
    && Mounted(after, target) && ExposesOnly(after, target, devicePath, device)
    && (forall q | q != target :: StackAt(after, q) == StackAt(w, q))
  }

  /** From single mounts, one unpublish and one unstage without faults remove both. */
  lemma DownFromSingleMounts(w: World, unpublish: Request, unstage: Request)
    requires Consistent(w) && w.faults == [] && MatchingDown(unpublish, unstage)
    requires |StackAt(w, unpublish.targetPath)| <= 1 && |StackAt(w, unstage.stagingPath)| <= 1
    ensures DownSucceeds(w, unpublish, unstage)
  {
    CleanFaultFree(w, unpublish);
    StepEffect(w, Call(unpublish, []));
    var unpublished := Step(w, Call(unpublish, []));
    CleanFaultFree(unpublished.world, unstage);
    StepEffect(unpublished.world, Call(unstage, []));
    RunPair(w, Call(unpublish, []), Call(unstage, []));
  }

  predicate MatchingDown(unpublish: Request, unstage: Request) {
    && unpublish.Unpublish? && Complete(unpublish)
    && unstage.Unstage? && Complete(unstage)
    && unpublish.targetPath != unstage.stagingPath
  }

  /** Both calls succeed, nothing is left at either path, and no other path's mounts change. */
  ghost predicate DownSucceeds(w: World, unpublish: Request, unstage: Request)
    requires MatchingDown(unpublish, unstage)
  {
    var target, staging := unpublish.targetPath, unstage.stagingPath;
    var unpublished, after := Step(w, Call(unpublish, [])), Down(w, unpublish, unstage);
    && unpublished.outcome == Success
    && Step(unpublished.world, Call(unstage, [])).outcome == Success
    && !Mounted(after, target) && !Mounted(after, staging)
    && (forall q | q != staging && q != target :: StackAt(after, q) == StackAt(w, q))
  }

  /** Whatever went wrong before, unpublishing and unstaging again take everything down. */
  lemma RecoveryDown(w: World, h: seq<Call>, device: string, unpublish: Request, unstage: Request)
    requires Consistent(w) && w.faults == [] && w.host.symlinksResolve && MatchingDown(unpublish, unstage)
    requires HoldsOnly(w, unstage.stagingPath, device) && DedicatedTo(w, h, unstage.stagingPath, device)
    requires |StackAt(w, unpublish.targetPath)| <= 1
    requires forall c | c in h :: c.req.Stage? ==> c.req.stagingPath != unpublish.targetPath
    ensures DownSucceeds(Run(w, h), unpublish, unstage)
  {
    TargetDepth(w, h, unpublish.targetPath);
    StagingDepth(w, h, unstage.stagingPath, device);
    RunIsIdle(w, h);
    DownFromSingleMounts(Run(w, h), unpublish, unstage);
  }

  /** For raw block volumes links need not resolve. */
  lemma RecoveryDownBlock(w: World, h: seq<Call>, unpublish: Request, unstage: Request)
    requires Consistent(w) && w.faults == [] && MatchingDown(unpublish, unstage)
    requires !Mounted(w, unstage.stagingPath) && StagesBlockOnly(h, unstage.stagingPath)
    requires |StackAt(w, unpublish.targetPath)| <= 1
    requires forall c | c in h :: c.req.Stage? ==> c.req.stagingPath != unpublish.targetPath
    ensures DownSucceeds(Run(w, h), unpublish, unstage)
  {
    TargetDepth(w, h, unpublish.targetPath);
    StagingStaysEmpty(w, h, unstage.stagingPath);
    RunIsIdle(w, h);
    DownFromSingleMounts(Run(w, h), unpublish, unstage);
  }

  // ---- What a successful publish does not mean ---------------------------------------------

  /** A publish that reports success has produced the mount it was asked for exactly when
      the target was free, or already carried that very mount. */
  lemma PublishedAsAskedExactlyWhen(w: World, c: Call)
    requires Consistent(w) && c.req.Publish? && c.req.capability.Some?
    requires Step(w, c).outcome == Success
    ensures StackAt(Step(w, c).world, c.req.targetPath) == [WantedMount(w, c.req)]
            <==> (!Mounted(w, c.req.targetPath) || StackAt(w, c.req.targetPath) == [WantedMount(w, c.req)])
  {
    StepEffect(w, c);
  }

  const WRITER := VolumeCapability(SingleNodeWriter, MountFs("ext4", []))
  const STAGE_V := Stage("v", "/staging", Some(WRITER), CONTEXT_V)
  const CONTEXT_V := map[PUBLISH_INFO_DEVICE_PATH := "/dev/vdd"]
  const PUBLISH_V := Publish("v", "/staging", "/target", Some(WRITER), CONTEXT_V, true)

  /** A node with one device, nothing mounted, and only the two directories made. */
  function Blank(symlinksResolve: bool): World {
    World(Host({"/dev/vdd"}, map[], false, symlinksResolve), map[], {"/staging", "/target"}, [])
  }

  /** A read-only publish fails after the bind mount but before it is made read-only, and
      the probe that would undo it fails as well; the retry finds the target mounted and
      reports success over a writable mount. */
  lemma ReadOnlyRetryFindsWritableMount()
    ensures var first := Step(Blank(true), Call(PUBLISH_V, [Fine, Fine, FailAfter(["bind"]), Fail]));
            var retry := Step(first.world, Call(PUBLISH_V, []));
            && first.outcome == Failure(MountPointValidateError)
            && retry.outcome == Success
            && StackAt(retry.world, "/target") == [MountRecord("/staging", "/staging", "", ["bind"])]
  {
    var w := Blank(true);
    var loaded := w.(faults := [Fine, Fine, FailAfter(["bind"]), Fail]);
    var probe := IsLikelyNotMountPoint(loaded, "/target");
    assert probe.world.faults == [Fine, FailAfter(["bind"]), Fail];
    var made := MakePath(probe.world, "/target");
    assert made.world.faults == [FailAfter(["bind"]), Fail];
    var mounted := Mount(made.world, "/staging", "/target", "", ["bind", "ro"]);
    assert mounted.world.faults == [Fail];
  }

  /** A publish that comes before the stage binds the bare directory; after the stage, a
      second publish reports success, yet the target still does not show the device. */
  lemma EarlyPublishHidesTheDevice()
    ensures var early := Step(Blank(true), Call(PUBLISH_V, []));
            var staged := Step(early.world, Call(STAGE_V, []));
            var late := Step(staged.world, Call(PUBLISH_V, []));
            && early.outcome == Success && staged.outcome == Success && late.outcome == Success
            && StackAt(late.world, "/staging")[0].device == "/dev/vdd"
            && StackAt(late.world, "/target") == [MountRecord("/staging", "/staging", "", ["bind", "ro"])]
  {
    var w := Blank(true);
    var early := Step(w, Call(PUBLISH_V, []));
    assert StackAt(early.world, "/target") == [MountRecord("/staging", "/staging", "", ["bind", "ro"])];
    assert DevicePathIn(STAGE_V.context) == "/dev/vdd";
    StageFaultFree(early.world, STAGE_V);
    StepEffect(early.world, Call(STAGE_V, []));
    var staged := Step(early.world, Call(STAGE_V, []));
    PublishFaultFree(staged.world, PUBLISH_V);
    StepEffect(staged.world, Call(PUBLISH_V, []));
  }

  /** Staging at a path that carries the device already, when its link does not resolve. */
  lemma UnresolvedStageAgain(w: World)
    requires Consistent(w) && w.faults == [] && w.host == Blank(false).host
    requires "/staging" in w.paths && |StackAt(w, "/staging")| == 1
    ensures Step(w, Call(STAGE_V, [Fine, Fine, Fine, Fail])).outcome == Success
    ensures |StackAt(Step(w, Call(STAGE_V, [Fine, Fine, Fine, Fail])).world, "/staging")| == 2
  {
    var loaded := w.(faults := [Fine, Fine, Fine, Fail]);
    assert DevicePathIn(STAGE_V.context) == "/dev/vdd";
    var source := FindDevicePathSource(loaded, "/dev/vdd");
    assert source == Lookup(w.(faults := [Fine, Fine, Fail]), "/dev/vdd", false);
    var look := PathExists(source.world, "/staging");
    assert look == Answer(w.(faults := [Fine, Fail]), true, NoError);
    var device := GetDeviceNameFromMount(look.world, "/staging");
    assert device.world == w.(faults := [Fail]) && !device.failed;
    assert EvalSymlinks(device.world, "/dev/vdd") == Lookup(w, "", true);
    assert Served(loaded, STAGE_V) == Formatted(w, "/dev/vdd", "/staging", WRITER.access);
  }

  /** When the device's link does not resolve, staging again stacks a second mount, and
      an unstage without faults then fails. */
  lemma UnresolvedLinkStacksMounts()
    ensures var first := Step(Blank(false), Call(STAGE_V, []));
            var again := Step(first.world, Call(STAGE_V, [Fine, Fine, Fine, Fail]));
            var unstaged := Step(again.world, Call(Unstage("v", "/staging"), []));
            && first.outcome == Success && again.outcome == Success
            && |StackAt(again.world, "/staging")| == 2
            && unstaged.outcome == Failure(UnmountFailed)
  {
    var w := Blank(false);
    assert DevicePathIn(STAGE_V.context) == "/dev/vdd";
    StageFaultFree(w, STAGE_V);
    StepEffect(w, Call(STAGE_V, []));
    var first := Step(w, Call(STAGE_V, []));
    UnresolvedStageAgain(first.world);
    var again := Step(first.world, Call(STAGE_V, [Fine, Fine, Fine, Fail]));
    StepEffect(first.world, Call(STAGE_V, [Fine, Fine, Fine, Fail]));
    CleanFaultFree(again.world, Unstage("v", "/staging"));
  }
}
