/** From the controller to the node: the device path an attachment was given is the one
    that is mounted. */
module HandOff {
  import opened Mounter
  import opened NodeServer
  import opened NodeEffects
  import opened NodeHistories
  import opened NodeRecovery
  import A = Attachments

  /** A controller publish that succeeded. */
  predicate HandsOver(inst: A.Instance, req: A.Request) {
    && req.Publish? && A.Objection(req).None?
    && A.PublishHandled(inst, req).response.Published?
  }

  /** The device path of the attachment that publish left behind. */
  function AttachedPath(inst: A.Instance, req: A.Request): string
    requires HandsOver(inst, req)
  {
    var attachments := A.PublishHandled(inst, req).instance.attachments;
    if req.volumeID in attachments then attachments[req.volumeID].devicePath else ""
  }

  /** The node reads back from the context the path the attachment has, which is the one the
      wait reported for the attachment that the attach call produced. */
  lemma ContextCarriesDevicePath(inst: A.Instance, req: A.Request)
    requires HandsOver(inst, req)
    ensures DevicePathIn(A.PublishHandled(inst, req).response.context) == AttachedPath(inst, req)
    ensures var attached := A.AttachVolume(inst, req.volumeID, req.env.devicePath, req.env.act);
            && attached.result.Ok?
            && (var waited := A.WaitForAttachVolume(attached.instance, req.volumeID, attached.result.value.id,
                                                    req.env.wait);
                && waited.result.Ok? && waited.result.value.id == attached.result.value.id
                && AttachedPath(inst, req) == waited.result.value.devicePath)
  {
    A.PublishedMeansAttached(inst, req);
  }

  /** Staging with that context, whatever goes wrong on the way and whatever is mounted
      there, can only succeed over that very device: it was the oldest mount already, or
      it is now the topmost. */
  lemma StagingMountsAttachedDevice(inst: A.Instance, req: A.Request, w: World, c: Call)
    requires HandsOver(inst, req) && Consistent(w)
    requires c.req.Stage? && ForFileSystem(c.req)
    requires c.req.context == A.PublishHandled(inst, req).response.context
    requires Step(w, c).outcome == Success
    ensures var before, after := StackAt(w, c.req.stagingPath), StackAt(Step(w, c).world, c.req.stagingPath);
            var device := ResolveLink(w, AttachedPath(inst, req));
            && after != []
            && (after == before ==> before[0].device == device)
            && (after != before ==>
                  && |after| == |before| + 1 && after[..|before|] == before
                  && after[|before|].source == AttachedPath(inst, req) && after[|before|].device == device
                  && after[|before|] == StagedMount(w, AttachedPath(inst, req), c.req.capability.value.access))
  {
    ContextCarriesDevicePath(inst, req);
    StepEffect(w, c);
  }

  /** The same for publishing a raw block volume. */
  lemma BlockPublishMountsAttachedDevice(inst: A.Instance, req: A.Request, w: World, c: Call)
    requires HandsOver(inst, req) && Consistent(w)
    requires c.req.Publish? && c.req.capability.Some? && c.req.capability.value.access.Block?
    requires !Mounted(w, c.req.targetPath)
    requires c.req.context == A.PublishHandled(inst, req).response.context
    requires Step(w, c).outcome == Success
    ensures StackAt(Step(w, c).world, c.req.targetPath)
            == [MountRecord(AttachedPath(inst, req), Backing(w, AttachedPath(inst, req)), "",
                            if c.req.readonly then ["bind", "ro"] else ["bind"])]
  {
    ContextCarriesDevicePath(inst, req);
    StepEffect(w, c);
  }

  /** End to end for a file system: after any faulty history that keeps the two paths for
      this volume, a stage and a publish with the context of a controller publish leave the
      target showing the attached device, once. */
  lemma AttachedDeviceReachesTarget(inst: A.Instance, req: A.Request, w: World, h: seq<Call>,
                                    stage: Request, publish: Request)
    requires HandsOver(inst, req) && Consistent(w) && w.faults == [] && w.host.symlinksResolve
    requires Matching(w, stage, publish) && stage.context == A.PublishHandled(inst, req).response.context
    requires var device := ResolveLink(w, AttachedPath(inst, req));
             && DedicatedTo(w, h, stage.stagingPath, device)
             && HoldsOnly(w, stage.stagingPath, device)
             && ExposesOnly(w, publish.targetPath, stage.stagingPath, device)
    requires || PublishesInOrder(w, h, stage.stagingPath, publish.targetPath)
             || FollowsLifecycle(w, h, stage.stagingPath, publish.targetPath)
    ensures var after := Up(Run(w, h), stage, publish);
            && Mounted(after, publish.targetPath)
            && ExposesOnly(after, publish.targetPath, stage.stagingPath, ResolveLink(w, AttachedPath(inst, req)))
  {
    ContextCarriesDevicePath(inst, req);
    if FollowsLifecycle(w, h, stage.stagingPath, publish.targetPath) {
      LifecycleIsInOrder(w, h, stage.stagingPath, publish.targetPath);
    }
    RecoveryUp(w, h, stage, publish);
    StagingDepth(w, h, stage.stagingPath, DeviceOf(w, stage));
  }

  /** The same for a raw block volume. */
  lemma AttachedDeviceReachesBlockTarget(inst: A.Instance, req: A.Request, w: World, h: seq<Call>,
                                         stage: Request, publish: Request)
    requires HandsOver(inst, req) && Consistent(w) && w.faults == []
    requires MatchingBlock(stage, publish) && stage.context == A.PublishHandled(inst, req).response.context
    requires var path := AttachedPath(inst, req);
             && PublishesDevice(h, publish.targetPath, path) && !Mounted(w, path)
             && ExposesOnly(w, publish.targetPath, path, ResolveLink(w, path))
    ensures var after, path := Up(Run(w, h), stage, publish), AttachedPath(inst, req);
            && Mounted(after, publish.targetPath)
            && ExposesOnly(after, publish.targetPath, path, ResolveLink(w, path))
  {
    ContextCarriesDevicePath(inst, req);
    RecoveryUpBlock(w, h, stage, publish);
    BlockBacking(w, h, publish.targetPath, AttachedPath(inst, req));
  }
}
