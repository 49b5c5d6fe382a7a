/** Whole histories of calls on one node, each call with its own faults. */
module NodeHistories {
  import opened Mounter
  import opened NodeServer
  import opened NodeEffects

  datatype Call = Call(req: Request, faults: seq<Fault>)

  /** The node between calls has no faults pending. */
  function Step(w: World, c: Call): Reply {
    var reply := Served(w.(faults := c.faults), c.req);
    reply.(world := reply.world.(faults := []))
  }

  function Run(w: World, h: seq<Call>): World {
    if h == [] then w else Step(Run(w, h[..|h| - 1]), h[|h| - 1]).world
  }

  lemma RunExtend(w: World, h: seq<Call>, c: Call)
    ensures Run(w, h + [c]) == Step(Run(w, h), c).world
  {
    assert (h + [c])[..|h|] == h;
  }

  // ---- Effects, with the faults put away ----------------------------------------------

  /** Any call, as one of the three kinds of change. */
  ghost predicate CallStep(w: World, req: Request, reply: Reply) {
    match req
    case Stage(_, _, _, _) => StageStep(w, req, reply)
    case Publish(_, _, _, _, _, _) => PublishStep(w, req, reply)
    case _ => CleanStep(w, req, reply)
  }

  lemma FaultsAreNoMount(w: World, faults: seq<Fault>, req: Request, reply: Reply)
    requires CallStep(w.(faults := faults), req, reply)
    ensures CallStep(w, req, reply.(world := reply.world.(faults := [])))
  {
    var loaded, cleared := w.(faults := faults), reply.world.(faults := []);
    assert forall q :: StackAt(loaded, q) == StackAt(w, q);
    assert forall q :: StackAt(cleared, q) == StackAt(reply.world, q);
  }

  lemma StepEffect(w: World, c: Call)
    requires Consistent(w)
    ensures CallStep(w, c.req, Step(w, c))
  {
    var loaded := w.(faults := c.faults);
    match c.req {
      case Stage(_, _, _, _) => StageEffect(loaded, c.req);
      case Publish(_, _, _, _, _, _) => PublishEffect(loaded, c.req);
      case _ => CleanEffect(loaded, c.req);
    }
    FaultsAreNoMount(w, c.faults, c.req, Served(loaded, c.req));
  }

  // ---- Depth of the stacks ----------------------------------------------------------------

  /** A path that is never a staging path carries at most one mount, whatever calls are
      made and however they fail. */
  lemma {:induction false} TargetDepth(w: World, h: seq<Call>, target: string)
    requires Consistent(w) && |StackAt(w, target)| <= 1
    requires forall c | c in h :: c.req.Stage? ==> c.req.stagingPath != target
    ensures Consistent(Run(w, h)) && |StackAt(Run(w, h), target)| <= 1
  {
    if h != [] {
      var front, last := h[..|h| - 1], h[|h| - 1];
      TargetDepth(w, front, target);
      var now := Run(w, front);
      StepEffect(now, last);
      assert last in h;
    }
  }

  /** At most one mount, and of this device. */
  predicate HoldsOnly(w: World, p: string, device: string) {
    |StackAt(w, p)| <= 1 && (Mounted(w, p) ==> StackAt(w, p)[0].device == device)
  }

  /** The history stages only this device at the path, and never publishes there. */
  ghost predicate DedicatedTo(w: World, h: seq<Call>, staging: string, device: string) {
    forall c | c in h ::
      && (c.req.Publish? ==> c.req.targetPath != staging)
      && (c.req.Stage? && c.req.stagingPath == staging ==> ResolveLink(w, DevicePathIn(c.req.context)) == device)
  }

  /** As long as links resolve, a dedicated staging path holds its device at most once. */
  lemma {:induction false} StagingDepth(w: World, h: seq<Call>, staging: string, device: string)
    requires Consistent(w) && w.host.symlinksResolve
    requires HoldsOnly(w, staging, device) && DedicatedTo(w, h, staging, device)
    ensures Consistent(Run(w, h)) && Run(w, h).host == w.host
    ensures HoldsOnly(Run(w, h), staging, device)
  {
    if h != [] {
      var front, last := h[..|h| - 1], h[|h| - 1];
      assert last in h;
      StagingDepth(w, front, staging, device);
      var now := Run(w, front);
      StepEffect(now, last);
    }
  }

  /** The lifecycle of the CSI specification, section "Volume Lifecycle", as the node sees
      it: a publish at the target comes only from the staging path, and only while there
      is a mount there. */
  ghost predicate PublishesInOrder(w: World, h: seq<Call>, staging: string, target: string)
    decreases |h|
  {
    h == [] ||
    (var front, last := h[..|h| - 1], h[|h| - 1];
     && PublishesInOrder(w, front, staging, target)
     && (last.req.Stage? ==> last.req.stagingPath != target)
     && (last.req.Publish? && last.req.targetPath == target ==>
           && last.req.stagingPath == staging
           && (last.req.capability.Some? ==> last.req.capability.value.access.MountFs?)
           && Mounted(Run(w, front), staging)))
  }

  /** What the caller has been told: the last stage of a file system there that succeeded has
      not been followed by any call to take the path down; or there was a mount to begin with. */
  ghost predicate KnownStaged(w: World, h: seq<Call>, staging: string)
    decreases |h|
  {
    if h == [] then Mounted(w, staging)
    else
      var front, last := h[..|h| - 1], h[|h| - 1];
      var takesDown := (last.req.Unstage? || last.req.Unpublish?) && CleanedPath(last.req) == staging;
      var staged := last.req.Stage? && last.req.stagingPath == staging && ForFileSystem(last.req)
                    && Step(Run(w, front), last).outcome == Success;
      staged || (!takesDown && KnownStaged(w, front, staging))
  }

  /** The caller keeps to the lifecycle by what it has been told. */
  ghost predicate FollowsLifecycle(w: World, h: seq<Call>, staging: string, target: string)
    decreases |h|
  {
    h == [] ||
    (var front, last := h[..|h| - 1], h[|h| - 1];
     && FollowsLifecycle(w, front, staging, target)
     && (last.req.Stage? ==> last.req.stagingPath != target)
     && (last.req.Publish? && last.req.targetPath == target ==>
           && last.req.stagingPath == staging
           && (last.req.capability.Some? ==> last.req.capability.value.access.MountFs?)
           && KnownStaged(w, front, staging)))
  }

  /** What the caller knows to be staged is mounted, whatever else has failed. */
  lemma {:induction false} KnownStagedIsMounted(w: World, h: seq<Call>, staging: string)
    requires Consistent(w)
    ensures Consistent(Run(w, h))
    ensures KnownStaged(w, h, staging) ==> Mounted(Run(w, h), staging)
  {
    if h != [] {
      var front, last := h[..|h| - 1], h[|h| - 1];
      KnownStagedIsMounted(w, front, staging);
      StepEffect(Run(w, front), last);
    }
  }

  /** So a caller that keeps to the lifecycle publishes in order. */
  lemma {:induction false} LifecycleIsInOrder(w: World, h: seq<Call>, staging: string, target: string)
    requires Consistent(w) && FollowsLifecycle(w, h, staging, target)
    ensures PublishesInOrder(w, h, staging, target)
  {
    if h != [] {
      var front := h[..|h| - 1];
      LifecycleIsInOrder(w, front, staging, target);
      KnownStagedIsMounted(w, front, staging);
    }
  }

  /** At most one mount, exposing this device by way of this staging path. */
  predicate ExposesOnly(w: World, p: string, staging: string, device: string) {
    HoldsOnly(w, p, device) && (Mounted(w, p) ==> StackAt(w, p)[0].source == staging)
  }

  /** One call of such a history, at the target. */
  lemma BackingStep(w: World, req: Request, reply: Reply, staging: string, target: string, device: string)
    requires CallStep(w, req, reply)
    requires HoldsOnly(w, staging, device) && ExposesOnly(w, target, staging, device)
    requires req.Stage? ==> req.stagingPath != target
    requires req.Publish? && req.targetPath == target ==>
               && req.stagingPath == staging
               && (req.capability.Some? ==> req.capability.value.access.MountFs?)
               && Mounted(w, staging)
    ensures ExposesOnly(reply.world, target, staging, device)
  {
  }

  /** Then the target, too, exposes the device at most once, and nothing else. */
  lemma {:induction false} TargetBacking(w: World, h: seq<Call>, staging: string, target: string, device: string)
    requires Consistent(w) && w.host.symlinksResolve
    requires HoldsOnly(w, staging, device) && DedicatedTo(w, h, staging, device)
    requires ExposesOnly(w, target, staging, device) && PublishesInOrder(w, h, staging, target)
    ensures ExposesOnly(Run(w, h), target, staging, device)
  {
    if h != [] {
      var front, last := h[..|h| - 1], h[|h| - 1];
      StagingDepth(w, front, staging, device);
      TargetBacking(w, front, staging, target, device);
      var now := Run(w, front);
      StepEffect(now, last);
      BackingStep(now, last.req, Step(now, last), staging, target, device);
    }
  }

  // ---- Raw block volumes -----------------------------------------------------------------------

  /** The history keeps the target for one raw block volume: publishes there are of this
      device path, nothing is staged there, and nothing is mounted on the device path. */
  ghost predicate PublishesDevice(h: seq<Call>, target: string, devicePath: string) {
    forall c | c in h ::
      && (c.req.Stage? ==> c.req.stagingPath != target && c.req.stagingPath != devicePath)
      && (c.req.Publish? ==> c.req.targetPath != devicePath)
      && (c.req.Publish? && c.req.targetPath == target && c.req.capability.Some? ==>
            c.req.capability.value.access.Block? && DevicePathIn(c.req.context) == devicePath)
  }

  /** Then the target exposes that device at most once, and nothing else, whatever fails. */
  lemma {:induction false} BlockBacking(w: World, h: seq<Call>, target: string, devicePath: string)
    requires Consistent(w) && target != devicePath && !Mounted(w, devicePath)
    requires ExposesOnly(w, target, devicePath, ResolveLink(w, devicePath)) && PublishesDevice(h, target, devicePath)
    ensures Consistent(Run(w, h)) && Run(w, h).host == w.host && !Mounted(Run(w, h), devicePath)
    ensures ExposesOnly(Run(w, h), target, devicePath, ResolveLink(w, devicePath))
  {
    if h != [] {
      var front, last := h[..|h| - 1], h[|h| - 1];
      assert last in h;
      BlockBacking(w, front, target, devicePath);
      var now := Run(w, front);
      StepEffect(now, last);
      BlockBackingStep(now, last.req, Step(now, last), target, devicePath);
    }
  }

  lemma BlockBackingStep(w: World, req: Request, reply: Reply, target: string, devicePath: string)
    requires CallStep(w, req, reply) && target != devicePath && !Mounted(w, devicePath)
    requires ExposesOnly(w, target, devicePath, ResolveLink(w, devicePath))
    requires PublishesDevice([Call(req, [])], target, devicePath)
    ensures Consistent(reply.world) && reply.world.host == w.host && !Mounted(reply.world, devicePath)
    ensures ExposesOnly(reply.world, target, devicePath, ResolveLink(w, devicePath))
  {
    assert Call(req, []) in [Call(req, [])];
  }

  /** The history uses the staging path for raw block volumes at most, and never publishes there. */
  ghost predicate StagesBlockOnly(h: seq<Call>, staging: string) {
    forall c | c in h ::
      && (c.req.Publish? ==> c.req.targetPath != staging)
      && (c.req.Stage? && c.req.stagingPath == staging && c.req.capability.Some? ==>
            c.req.capability.value.access.Block?)
  }

  /** Then nothing is ever mounted there. */
  lemma {:induction false} StagingStaysEmpty(w: World, h: seq<Call>, staging: string)
    requires Consistent(w) && !Mounted(w, staging) && StagesBlockOnly(h, staging)
    ensures Consistent(Run(w, h)) && !Mounted(Run(w, h), staging)
  {
    if h != [] {
      var front, last := h[..|h| - 1], h[|h| - 1];
      assert last in h;
      StagingStaysEmpty(w, front, staging);
      var now := Run(w, front);
      StepEffect(now, last);
      if last.req.Stage? && last.req.capability.Some? && last.req.capability.value.access.Block? {
        StagingBlockChangesNothing(now.(faults := last.faults), last.req);
      }
    }
  }

  // ---- Calls without faults ----------------------------------------------------------------

  predicate ForFileSystem(req: Request) {
    (req.Stage? || req.Publish?) && Complete(req) && req.capability.value.access.MountFs?
  }

  lemma StageFaultFree(w: World, req: Request)
    requires Consistent(w) && w.faults == []
    requires req.Stage? && ForFileSystem(req) && DevicePathIn(req.context) != ""
    requires req.stagingPath !in w.host.devices
    ensures var reply := Step(w, Call(req, []));
            var before, after := StackAt(w, req.stagingPath), StackAt(reply.world, req.stagingPath);
            var device := ResolveLink(w, DevicePathIn(req.context));
            && reply.outcome == Success
            && (before == [] ==> after == [StagedMount(w, DevicePathIn(req.context), req.capability.value.access)])
            && (before != [] && before[0].device == device ==> after == before)
  {
    var devicePath := DevicePathIn(req.context);
    RefusedExactlyWhen(req);
    assert w.(faults := []) == w && Consumed(w) == w;
    assert ResolveLink(w, devicePath) != "";
    assert FindDevicePathSource(w, devicePath) == Lookup(w, devicePath, false);
    var made := if req.stagingPath in w.paths then w
                else MakePath(w, req.stagingPath).world;
    assert Served(w, req) == DeviceStaged(made, devicePath, req.stagingPath, req.capability.value.access);
    FormattedMount(w, devicePath, req.capability.value.access);
  }

  lemma RunIsIdle(w: World, h: seq<Call>)
    requires w.faults == []
    ensures Run(w, h).faults == []
  {
  }

  lemma PublishFaultFree(w: World, req: Request)
    requires Consistent(w) && w.faults == []
    requires req.Publish? && ForFileSystem(req)
    ensures var reply := Step(w, Call(req, []));
            var before, after := StackAt(w, req.targetPath), StackAt(reply.world, req.targetPath);
            && reply.outcome == Success
            && after == if before != [] then before else [WantedMount(w, req)]
  {
    RefusedExactlyWhen(req);
    assert w.(faults := []) == w && Consumed(w) == w;
  }

  lemma BlockPublishFaultFree(w: World, req: Request)
    requires Consistent(w) && w.faults == []
    requires req.Publish? && Complete(req)
    requires req.capability.value.access.Block? && DevicePathIn(req.context) != ""
    ensures var reply := Step(w, Call(req, []));
            var before, after := StackAt(w, req.targetPath), StackAt(reply.world, req.targetPath);
            && reply.outcome == Success
            && after == if before != [] then before else [WantedMount(w, req)]
  {
    RefusedExactlyWhen(req);
    var devicePath, target := DevicePathIn(req.context), req.targetPath;
    assert w.(faults := []) == w && Consumed(w) == w;
    if !Mounted(w, target) {
      assert FindDevicePathSource(w, devicePath) == Lookup(w, devicePath, false);
      var made := if PathExists(w, DirOf(target)).yes then w else MakePath(w, DirOf(target)).world;
      assert Served(w, req) == BlockMounted(made, devicePath, target, PublishOptions(req.readonly));
      assert Backing(made, devicePath) == Backing(w, devicePath);
    }
  }

  lemma CleanFaultFree(w: World, req: Request)
    requires Consistent(w) && w.faults == []
    requires (req.Unpublish? || req.Unstage?) && Complete(req)
    ensures var reply := Step(w, Call(req, []));
            var before := StackAt(w, CleanedPath(req));
            && StackAt(reply.world, CleanedPath(req)) == Popped(before)
            && reply.outcome == if |before| <= 1 then Success else Failure(UnmountFailed)
  {
    RefusedExactlyWhen(req);
    assert w.(faults := []) == w;
    CleanupFaultFree(w, CleanedPath(req));
  }
}
