/** Calls on disjoint paths do not see each other: a volume's history can be cut out of
    any interleaving, and a volume that has come and gone leaves no trace. */
module NodeIsolation {
  import opened Common
  import opened Mounter
  import opened NodeServer
  import opened NodeEffects
  import opened NodeHistories

  /** The part of the node at the paths in `keep`. */
  ghost function Restrict(w: World, keep: iset<string>): World {
    w.(mounts := map p | p in w.mounts && p in keep :: w.mounts[p],
       paths := set p | p in w.paths && p in keep)
  }

  ghost function RestrictReply(r: Reply, keep: iset<string>): Reply {
    r.(world := Restrict(r.world, keep))
  }

  ghost function RestrictDone(d: Done, keep: iset<string>): Done {
    d.(world := Restrict(d.world, keep))
  }

  ghost function RestrictAnswer(a: Answer, keep: iset<string>): Answer {
    a.(world := Restrict(a.world, keep))
  }

  ghost function RestrictLookup(l: Lookup, keep: iset<string>): Lookup {
    l.(world := Restrict(l.world, keep))
  }

  function DeviceIn(context: map<string, string>): set<string> {
    if DevicePathIn(context) == "" then {} else {DevicePathIn(context)}
  }

  /** Every path a call looks at or changes: the device is looked for only when it is to be
      staged, or published raw; the target's directory only for the latter. */
  function Footprint(req: Request): set<string> {
    match req
    case Stage(_, staging, cap, context) =>
      if cap.Some? && !cap.value.access.Block? then {staging} + DeviceIn(context) else {staging}
    case Publish(_, staging, target, cap, context, _) =>
      if cap.Some? && cap.value.access.Block? then {target, DirOf(target)} + DeviceIn(context)
      else if cap.Some? && cap.value.access.MountFs? then {target, staging}
      else {target}
    case Unpublish(_, target) => {target}
    case Unstage(_, staging) => {staging}
  }

  // ---- The single calls ---------------------------------------------------------------

  lemma LookRestricts(w: World, p: string, keep: iset<string>)
    requires p in keep
    ensures StackAt(Restrict(w, keep), p) == StackAt(w, p)
    ensures PathExists(Restrict(w, keep), p) == RestrictAnswer(PathExists(w, p), keep)
    ensures IsLikelyNotMountPoint(Restrict(w, keep), p) == RestrictAnswer(IsLikelyNotMountPoint(w, p), keep)
    ensures GetDeviceNameFromMount(Restrict(w, keep), p) == RestrictLookup(GetDeviceNameFromMount(w, p), keep)
    ensures EvalSymlinks(Restrict(w, keep), p) == RestrictLookup(EvalSymlinks(w, p), keep)
  {
    assert Restrict(Consumed(w), keep) == Consumed(Restrict(w, keep));
  }

  lemma StackRestricts(w: World, p: string, stack: seq<MountRecord>, keep: iset<string>)
    requires p in keep
    ensures WithStack(Restrict(w, keep), p, stack) == Restrict(WithStack(w, p, stack), keep)
  {
    assert WithStack(Restrict(w, keep), p, stack).mounts == Restrict(WithStack(w, p, stack), keep).mounts;
  }

  lemma MakeRestricts(w: World, p: string, keep: iset<string>)
    requires p in keep
    ensures MakePath(Restrict(w, keep), p) == RestrictDone(MakePath(w, p), keep)
  {
    assert Restrict(w, keep).paths + {p} == set q | q in w.paths + {p} && q in keep;
  }

  lemma PushRestricts(w: World, record: MountRecord, p: string, keep: iset<string>)
    requires p in keep
    ensures PushMount(Restrict(w, keep), record, p) == RestrictDone(PushMount(w, record, p), keep)
  {
    LookRestricts(w, p, keep);
    assert Restrict(Consumed(w), keep) == Consumed(Restrict(w, keep));
    forall stack: seq<MountRecord> {
      StackRestricts(Consumed(w), p, stack, keep);
    }
  }

  lemma UnmountRestricts(w: World, p: string, keep: iset<string>)
    requires p in keep
    ensures Unmount(Restrict(w, keep), p) == RestrictDone(Unmount(w, p), keep)
  {
    LookRestricts(w, p, keep);
    assert Restrict(Consumed(w), keep) == Consumed(Restrict(w, keep));
    StackRestricts(Consumed(w), p, Popped(StackAt(w, p)), keep);
  }

  lemma RemoveRestricts(w: World, p: string, keep: iset<string>)
    requires p in keep
    ensures Remove(Restrict(w, keep), p)
            == Remove(w, p).(world := Restrict(Remove(w, p).world, keep))
  {
    LookRestricts(w, p, keep);
    assert Restrict(w, keep).paths - {p} == set q | q in w.paths - {p} && q in keep;
  }

  lemma FindRestricts(w: World, p: string, keep: iset<string>)
    requires p in keep
    ensures FindDevicePathSource(Restrict(w, keep), p) == RestrictLookup(FindDevicePathSource(w, p), keep)
  {
    LookRestricts(w, p, keep);
    LookRestricts(PathExists(w, p).world, p, keep);
  }

  // ---- Cleanup ---------------------------------------------------------------------------

  lemma RemoveIfRestricts(w: World, p: string, keep: iset<string>)
    requires p in keep
    ensures RemovePathIfNotMountPoint(Restrict(w, keep), p)
            == RemovePathIfNotMountPoint(w, p).(world := Restrict(RemovePathIfNotMountPoint(w, p).world, keep))
  {
    LookRestricts(w, p, keep);
    RemoveRestricts(IsLikelyNotMountPoint(w, p).world, p, keep);
  }

  lemma DoCleanupRestricts(w: World, p: string, corrupted: bool, keep: iset<string>)
    requires p in keep
    ensures DoCleanup(Restrict(w, keep), p, corrupted) == RestrictDone(DoCleanup(w, p, corrupted), keep)
  {
    if corrupted || w.host.safeUmount {
      UnmountRestricts(w, p, keep);
      RemoveRestricts(Unmount(w, p).world, p, keep);
    } else {
      RemoveIfRestricts(w, p, keep);
      var first := RemovePathIfNotMountPoint(w, p);
      UnmountRestricts(first.world, p, keep);
      RemoveIfRestricts(Unmount(first.world, p).world, p, keep);
    }
  }

  lemma CleanedRestricts(w: World, p: string, keep: iset<string>)
    requires p in keep
    ensures Cleaned(Restrict(w, keep), p) == RestrictReply(Cleaned(w, p), keep)
  {
    LookRestricts(w, p, keep);
    var seen := PathExists(w, p);
    DoCleanupRestricts(seen.world, p, seen.error == Corrupted, keep);
  }

  // ---- Publishing and staging -------------------------------------------------------------

  lemma RollbackRestricts(w: World, p: string, keep: iset<string>)
    requires p in keep
    ensures RolledBack(Restrict(w, keep), p) == RestrictReply(RolledBack(w, p), keep)
  {
    LookRestricts(w, p, keep);
    var probe := IsLikelyNotMountPoint(w, p);
    RemoveRestricts(probe.world, p, keep);
    UnmountRestricts(probe.world, p, keep);
    var unmounted := Unmount(probe.world, p);
    LookRestricts(unmounted.world, p, keep);
    RemoveRestricts(IsLikelyNotMountPoint(unmounted.world, p).world, p, keep);
  }

  lemma BindRestricts(w: World, source: string, p: string, fsType: string, options: seq<string>, keep: iset<string>)
    requires source in keep && p in keep
    ensures Mount(Restrict(w, keep), source, p, fsType, options)
            == RestrictDone(Mount(w, source, p, fsType, options), keep)
  {
    LookRestricts(w, source, keep);
    PushRestricts(w, MountRecord(source, Backing(w, source), fsType, options), p, keep);
  }

  lemma ProcessRestricts(w: World, staging: string, p: string, options: seq<string>, keep: iset<string>)
    requires staging in keep && p in keep
    ensures MountProcessed(Restrict(w, keep), staging, p, "", options)
            == RestrictReply(MountProcessed(w, staging, p, "", options), keep)
  {
    MakeRestricts(w, p, keep);
    var made := MakePath(w, p);
    BindRestricts(made.world, staging, p, "", options, keep);
    RollbackRestricts(Mount(made.world, staging, p, "", options).world, p, keep);
  }

  lemma BlockMountRestricts(w: World, source: string, p: string, options: seq<string>, keep: iset<string>)
    requires source in keep && p in keep
    ensures BlockMounted(Restrict(w, keep), source, p, options)
            == RestrictReply(BlockMounted(w, source, p, options), keep)
  {
    MakeRestricts(w, p, keep);
    var file := MakePath(w, p);
    RemoveRestricts(file.world, p, keep);
    BindRestricts(file.world, source, p, "", options, keep);
    RemoveRestricts(Mount(file.world, source, p, "", options).world, p, keep);
  }

  lemma BlockRestricts(w: World, devicePath: string, p: string, options: seq<string>, keep: iset<string>)
    requires devicePath in keep && p in keep && DirOf(p) in keep
    ensures BlockProcessed(Restrict(w, keep), devicePath, p, options)
            == RestrictReply(BlockProcessed(w, devicePath, p, options), keep)
  {
    FindRestricts(w, devicePath, keep);
    var source := FindDevicePathSource(w, devicePath);
    LookRestricts(source.world, DirOf(p), keep);
    var dir := PathExists(source.world, DirOf(p));
    MakeRestricts(dir.world, DirOf(p), keep);
    BlockMountRestricts(if dir.yes then dir.world else MakePath(dir.world, DirOf(p)).world,
                        devicePath, p, options, keep);
  }

  lemma FormattedRestricts(w: World, devicePath: string, p: string, access: AccessType, keep: iset<string>)
    requires p in keep
    ensures Formatted(Restrict(w, keep), devicePath, p, access)
            == RestrictReply(Formatted(w, devicePath, p, access), keep)
  {
    if access.MountFs? {
      var fsType := if access.fsType != "" then access.fsType else DEFAULT_FS_TYPE;
      PushRestricts(w, MountRecord(devicePath, ResolveLink(w, devicePath), fsType,
                                   CollectedOptions(fsType, access.flags) + ["defaults"]), p, keep);
    }
  }

  lemma StagedRestricts(w: World, devicePath: string, p: string, access: AccessType, keep: iset<string>)
    requires devicePath in keep && p in keep
    ensures Staged(Restrict(w, keep), devicePath, p, access)
            == RestrictReply(Staged(w, devicePath, p, access), keep)
  {
    FindRestricts(w, devicePath, keep);
    var source := FindDevicePathSource(w, devicePath);
    LookRestricts(source.world, p, keep);
    var look := PathExists(source.world, p);
    MakeRestricts(look.world, p, keep);
    DeviceStagedRestricts(if look.yes then look.world else MakePath(look.world, p).world,
                          devicePath, p, access, keep);
  }

  lemma DeviceStagedRestricts(w: World, devicePath: string, p: string, access: AccessType, keep: iset<string>)
    requires devicePath in keep && p in keep
    ensures DeviceStaged(Restrict(w, keep), devicePath, p, access)
            == RestrictReply(DeviceStaged(w, devicePath, p, access), keep)
  {
    LookRestricts(w, p, keep);
    var device := GetDeviceNameFromMount(w, p);
    LookRestricts(device.world, devicePath, keep);
    FormattedRestricts(EvalSymlinks(device.world, devicePath).world, devicePath, p, access, keep);
  }

  ghost predicate Within(req: Request, keep: iset<string>) {
    forall p | p in Footprint(req) :: p in keep
  }

  ghost predicate Outside(req: Request, keep: iset<string>) {
    forall p | p in Footprint(req) :: p !in keep
  }

  lemma PublishedRestricts(w: World, req: Request, keep: iset<string>)
    requires req.Publish? && req.capability.Some? && Within(req, keep)
    ensures Published(Restrict(w, keep), req) == RestrictReply(Published(w, req), keep)
  {
    var target, options := req.targetPath, PublishOptions(req.readonly);
    assert target in Footprint(req);
    LookRestricts(w, target, keep);
    var probe := IsLikelyNotMountPoint(w, target);
    match req.capability.value.access
    case Block =>
      assert DirOf(target) in Footprint(req);
      if DevicePathIn(req.context) != "" {
        assert DevicePathIn(req.context) in Footprint(req);
        BlockRestricts(probe.world, DevicePathIn(req.context), target, options, keep);
      }
    case MountFs(_, _) =>
      assert req.stagingPath in Footprint(req);
      ProcessRestricts(probe.world, req.stagingPath, target, options, keep);
    case Unset =>
  }

  /** A call inside `keep` sees and changes only what is there. */
  lemma ServedRestricts(w: World, req: Request, keep: iset<string>)
    requires Within(req, keep)
    ensures Served(Restrict(w, keep), req) == RestrictReply(Served(w, req), keep)
  {
    if Objection(req).None? {
      match req {
        case Stage(_, staging, cap, context) =>
          assert staging in Footprint(req);
          if !cap.value.access.Block? && DevicePathIn(context) != "" {
            assert DevicePathIn(context) in Footprint(req);
            StagedRestricts(w, DevicePathIn(context), staging, cap.value.access, keep);
          }
        case Publish(_, _, _, _, _, _) =>
          PublishedRestricts(w, req, keep);
        case Unpublish(_, target) =>
          assert target in Footprint(req);
          CleanedRestricts(w, target, keep);
        case Unstage(_, staging) =>
          assert staging in Footprint(req);
          CleanedRestricts(w, staging, keep);
      }
    }
  }

  lemma StepRestricts(w: World, c: Call, keep: iset<string>)
    requires Within(c.req, keep)
    ensures Step(Restrict(w, keep), c) == RestrictReply(Step(w, c), keep)
  {
    var loaded := w.(faults := c.faults);
    assert Restrict(w, keep).(faults := c.faults) == Restrict(loaded, keep);
    ServedRestricts(loaded, c.req, keep);
  }

  // ---- Calls elsewhere -----------------------------------------------------------------

  /** The same paths exist, those in `own` aside. */
  predicate SamePaths(w: World, w': World, own: set<string>) {
    w'.paths - own == w.paths - own
  }

  lemma SimplePathFrame(w: World, p: string, own: set<string>)
    requires p in own
    ensures SamePaths(w, PathExists(w, p).world, own)
    ensures SamePaths(w, IsLikelyNotMountPoint(w, p).world, own)
    ensures SamePaths(w, MakePath(w, p).world, own)
    ensures SamePaths(w, Unmount(w, p).world, own)
    ensures SamePaths(w, Remove(w, p).world, own)
  {
  }

  lemma PushPathFrame(w: World, record: MountRecord, p: string)
    ensures PushMount(w, record, p).world.paths == w.paths
  {
  }

  lemma FindPathFrame(w: World, p: string)
    ensures FindDevicePathSource(w, p).world.paths == w.paths
  {
  }

  lemma RollbackPathFrame(w: World, p: string, own: set<string>)
    requires p in own
    ensures SamePaths(w, RolledBack(w, p).world, own)
  {
    SimplePathFrame(w, p, own);
    var probe := IsLikelyNotMountPoint(w, p);
    SimplePathFrame(probe.world, p, own);
    var unmounted := Unmount(probe.world, p);
    SimplePathFrame(unmounted.world, p, own);
    SimplePathFrame(IsLikelyNotMountPoint(unmounted.world, p).world, p, own);
  }

  lemma MountPathFrame(w: World, staging: string, target: string, options: seq<string>, own: set<string>)
    requires target in own
    ensures SamePaths(w, MountProcessed(w, staging, target, "", options).world, own)
  {
    SimplePathFrame(w, target, own);
    var made := MakePath(w, target).world;
    PushPathFrame(made, MountRecord(staging, Backing(made, staging), "", options), target);
    RollbackPathFrame(Mount(made, staging, target, "", options).world, target, own);
  }

  lemma BlockMountPathFrame(w: World, source: string, target: string, options: seq<string>, own: set<string>)
    requires target in own
    ensures SamePaths(w, BlockMounted(w, source, target, options).world, own)
  {
    SimplePathFrame(w, target, own);
    var file := MakePath(w, target).world;
    SimplePathFrame(file, target, own);
    PushPathFrame(file, MountRecord(source, Backing(file, source), "", options), target);
    SimplePathFrame(Mount(file, source, target, "", options).world, target, own);
  }

  lemma BlockPathFrame(w: World, devicePath: string, target: string, options: seq<string>, own: set<string>)
    requires target in own && DirOf(target) in own
    ensures SamePaths(w, BlockProcessed(w, devicePath, target, options).world, own)
  {
    FindPathFrame(w, devicePath);
    var source := FindDevicePathSource(w, devicePath).world;
    SimplePathFrame(source, DirOf(target), own);
    var dir := PathExists(source, DirOf(target));
    SimplePathFrame(dir.world, DirOf(target), own);
    BlockMountPathFrame(if dir.yes then dir.world else MakePath(dir.world, DirOf(target)).world,
                        devicePath, target, options, own);
  }

  lemma DeviceStagedPathFrame(w: World, devicePath: string, staging: string, access: AccessType)
    ensures DeviceStaged(w, devicePath, staging, access).world.paths == w.paths
  {
    var target := EvalSymlinks(GetDeviceNameFromMount(w, staging).world, devicePath).world;
    if access.MountFs? {
      var fsType := if access.fsType != "" then access.fsType else DEFAULT_FS_TYPE;
      PushPathFrame(target, MountRecord(devicePath, ResolveLink(target, devicePath), fsType,
                                        CollectedOptions(fsType, access.flags) + ["defaults"]), staging);
    }
  }

  lemma StagedPathFrame(w: World, devicePath: string, staging: string, access: AccessType, own: set<string>)
    requires staging in own
    ensures SamePaths(w, Staged(w, devicePath, staging, access).world, own)
  {
    FindPathFrame(w, devicePath);
    var source := FindDevicePathSource(w, devicePath).world;
    SimplePathFrame(source, staging, own);
    var look := PathExists(source, staging);
    SimplePathFrame(look.world, staging, own);
    DeviceStagedPathFrame(if look.yes then look.world else MakePath(look.world, staging).world,
                          devicePath, staging, access);
  }

  lemma CleanedPathFrame(w: World, p: string)
    requires Consistent(w)
    ensures SamePaths(w, Cleaned(w, p).world, {p})
  {
    CleanupSummary(w, p);
    var after := Cleaned(w, p).world;
    assert forall q | q != p :: StackAt(after, q) == StackAt(w, q) && (q in after.paths <==> q in w.paths);
  }

  lemma PublishedPathFrame(w: World, req: Request)
    requires req.Publish? && req.capability.Some?
    ensures SamePaths(w, Published(w, req).world, Footprint(req))
  {
    var probe, own := IsLikelyNotMountPoint(w, req.targetPath), Footprint(req);
    match req.capability.value.access
    case Block =>
      BlockPathFrame(probe.world, DevicePathIn(req.context), req.targetPath, PublishOptions(req.readonly), own);
    case MountFs(_, _) =>
      MountPathFrame(probe.world, req.stagingPath, req.targetPath, PublishOptions(req.readonly), own);
    case Unset =>
  }

  lemma ServedPathFrame(w: World, req: Request)
    requires Consistent(w)
    ensures SamePaths(w, Served(w, req).world, Footprint(req))
  {
    if Objection(req).None? {
      var own := Footprint(req);
      match req {
        case Stage(_, staging, cap, context) =>
          StagedPathFrame(w, DevicePathIn(context), staging, cap.value.access, own);
        case Publish(_, _, _, _, _, _) => PublishedPathFrame(w, req);
        case Unpublish(_, target) => CleanedPathFrame(w, target);
        case Unstage(_, staging) => CleanedPathFrame(w, staging);
      }
    }
  }

  /** A call outside `keep` changes nothing there. */
  lemma StepElsewhere(w: World, c: Call, keep: iset<string>)
    requires Consistent(w) && w.faults == [] && Outside(c.req, keep)
    ensures Restrict(Step(w, c).world, keep) == Restrict(w, keep)
  {
    var after := Step(w, c).world;
    StepEffect(w, c);
    ServedPathFrame(w.(faults := c.faults), c.req);
    forall q | q in keep
      ensures StackAt(after, q) == StackAt(w, q) && (q in after.paths <==> q in w.paths)
    {
      assert q !in Footprint(c.req);
      assert q in after.paths - Footprint(c.req) <==> q in w.paths - Footprint(c.req);
    }
    assert Restrict(after, keep).mounts == Restrict(w, keep).mounts by {
      assert forall q | q in keep :: q in after.mounts <==> StackAt(after, q) != [];
      assert forall q | q in keep :: q in w.mounts <==> StackAt(w, q) != [];
    }
    assert Restrict(after, keep).paths == Restrict(w, keep).paths;
  }

  // ---- Histories ------------------------------------------------------------------------

  /** The calls of a history that act inside `keep`. */
  ghost function Own(h: seq<Call>, keep: iset<string>): seq<Call> {
    if h == [] then []
    else
      var front, last := h[..|h| - 1], h[|h| - 1];
      if Within(last.req, keep) then Own(front, keep) + [last] else Own(front, keep)
  }

  /** Every call stays on one side of the border. */
  ghost predicate Separated(h: seq<Call>, keep: iset<string>) {
    forall c | c in h :: Within(c.req, keep) || Outside(c.req, keep)
  }

  /** The outcomes of the calls inside `keep`, in order. */
  ghost function OwnOutcomes(w: World, h: seq<Call>, keep: iset<string>): seq<Outcome>
  {
    if h == [] then []
    else
      var front, last := h[..|h| - 1], h[|h| - 1];
      if Within(last.req, keep) then OwnOutcomes(w, front, keep) + [Step(Run(w, front), last).outcome]
      else OwnOutcomes(w, front, keep)
  }

  lemma NeverBoth(req: Request, keep: iset<string>)
    ensures !(Within(req, keep) && Outside(req, keep))
  {
    match req
    case Stage(_, p, _, _) => assert p in Footprint(req);
    case Publish(_, _, p, _, _, _) => assert p in Footprint(req);
    case Unpublish(_, p) => assert p in Footprint(req);
    case Unstage(_, p) => assert p in Footprint(req);
  }

  /** Seen from inside `keep`, any interleaving with calls elsewhere is the same as
      running the inside calls alone: same mounts, same paths, same answers. */
  lemma {:induction false} Isolation(w: World, h: seq<Call>, keep: iset<string>)
    requires Consistent(w) && w.faults == [] && Separated(h, keep)
    ensures Consistent(Run(w, h)) && Run(w, h).faults == []
    ensures Restrict(Run(w, h), keep) == Run(Restrict(w, keep), Own(h, keep))
    ensures OwnOutcomes(w, h, keep) == OwnOutcomes(Restrict(w, keep), Own(h, keep), keep)
  {
    if h != [] {
      var front, last := h[..|h| - 1], h[|h| - 1];
      assert last in h;
      Isolation(w, front, keep);
      var now := Run(w, front);
      StepEffect(now, last);
      if Within(last.req, keep) {
        StepRestricts(now, last, keep);
        var own := Own(h, keep);
        assert own[..|own| - 1] == Own(front, keep);
      } else {
        StepElsewhere(now, last, keep);
      }
    }
  }

  ghost function Others(h: seq<Call>, keep: iset<string>): seq<Call> {
    Own(h, iset p | p !in keep)
  }

  lemma OutsideIsWithinTheRest(req: Request, keep: iset<string>)
    ensures Outside(req, keep) <==> Within(req, iset p | p !in keep)
    ensures Within(req, keep) <==> Outside(req, iset p | p !in keep)
  {
  }

  lemma {:induction false} OthersAreSeparated(h: seq<Call>, keep: iset<string>)
    requires Separated(h, keep)
    ensures Separated(h, iset p | p !in keep)
    ensures Separated(Others(h, keep), keep) && Own(Others(h, keep), keep) == []
    ensures Separated(Others(h, keep), iset p | p !in keep)
    ensures Own(Others(h, keep), iset p | p !in keep) == Others(h, keep)
  {
    forall c | c in h
      ensures Outside(c.req, iset p | p !in keep) || Within(c.req, iset p | p !in keep)
    {
      OutsideIsWithinTheRest(c.req, keep);
    }
    if h != [] {
      var front, last := h[..|h| - 1], h[|h| - 1];
      OthersAreSeparated(front, keep);
      OutsideIsWithinTheRest(last.req, keep);
      NeverBoth(last.req, keep);
      assert last in h;
      if Outside(last.req, keep) {
        var others := Others(h, keep);
        assert others[..|others| - 1] == Others(front, keep);
      }
    }
  }

  /** Two nodes that agree outside `keep`, and have nothing mounted inside it. */
  lemma SameMountTable(a: World, b: World, keep: iset<string>)
    requires Consistent(a) && Consistent(b)
    requires Restrict(a, iset p | p !in keep).mounts == Restrict(b, iset p | p !in keep).mounts
    requires forall p | p in keep :: !Mounted(a, p) && !Mounted(b, p)
    ensures a.mounts == b.mounts
  {
    var rest := iset p | p !in keep;
    forall p
      ensures p in a.mounts <==> p in b.mounts
      ensures p in a.mounts ==> a.mounts[p] == b.mounts[p]
    {
      if p in keep {
        assert !Mounted(a, p) && !Mounted(b, p);
      } else {
        assert p in Restrict(a, rest).mounts <==> p in a.mounts;
        assert p in Restrict(b, rest).mounts <==> p in b.mounts;
      }
    }
  }

  lemma OthersLeaveKeepAlone(w: World, h: seq<Call>, keep: iset<string>)
    requires Consistent(w) && w.faults == [] && Separated(h, keep)
    requires forall p | p in keep :: !Mounted(w, p)
    ensures Consistent(Run(w, Others(h, keep)))
    ensures forall p | p in keep :: !Mounted(Run(w, Others(h, keep)), p)
  {
    OthersAreSeparated(h, keep);
    Isolation(w, Others(h, keep), keep);
    var b := Run(w, Others(h, keep));
    assert Restrict(b, keep).mounts == Restrict(w, keep).mounts;
    forall p | p in keep
      ensures !Mounted(b, p)
    {
      assert !Mounted(w, p);
      assert p !in Restrict(w, keep).mounts;
    }
  }

  /** Conservation: a history that finds and leaves nothing mounted inside `keep` has the
      same mount table as the history without the inside calls. */
  lemma Conservation(w: World, h: seq<Call>, keep: iset<string>)
    requires Consistent(w) && w.faults == [] && Separated(h, keep)
    requires forall p | p in keep :: !Mounted(w, p)
    requires forall p | p in keep :: !Mounted(Run(w, h), p)
    ensures Run(w, h).mounts == Run(w, Others(h, keep)).mounts
  {
    var rest := iset p | p !in keep;
    OthersAreSeparated(h, keep);
    OthersLeaveKeepAlone(w, h, keep);
    Isolation(w, h, rest);
    Isolation(w, Others(h, keep), rest);
    SameMountTable(Run(w, h), Run(w, Others(h, keep)), keep);
  }

  // ---- The life of one volume ---------------------------------------------------------------

  /** A volume's whole life, each call with faults of its own. */
  predicate LifeCycle(own: seq<Call>, staging: string, target: string) {
    && |own| == 4 && staging != target
    && own[0].req.Stage? && own[0].req.stagingPath == staging
    && own[1].req.Publish? && own[1].req.stagingPath == staging && own[1].req.targetPath == target
    && own[2].req.Unpublish? && own[2].req.targetPath == target
    && own[3].req.Unstage? && own[3].req.stagingPath == staging
  }

  lemma CleanLast(w: World, c: Call, others: set<string>)
    requires Consistent(w) && (c.req.Unpublish? || c.req.Unstage?)
    requires Step(w, c).outcome == Success
    requires forall p | p !in others && p != CleanedPath(c.req) :: !Mounted(w, p)
    ensures Consistent(Step(w, c).world)
    ensures forall p | p !in others :: !Mounted(Step(w, c).world, p)
  {
    StepEffect(w, c);
  }

  lemma MountsOnlyThere(w: World, c: Call, others: set<string>)
    requires Consistent(w) && (c.req.Stage? || c.req.Publish?)
    requires forall p | p !in others :: !Mounted(w, p)
    requires if c.req.Stage? then c.req.stagingPath in others else c.req.targetPath in others
    ensures Consistent(Step(w, c).world)
    ensures forall p | p !in others :: !Mounted(Step(w, c).world, p)
  {
    StepEffect(w, c);
  }

  /** Once its unpublish and its unstage have succeeded, a life cycle has left nothing
      mounted at any of its paths. */
  lemma LifeCycleCleans(w: World, own: seq<Call>, staging: string, target: string)
    requires Consistent(w) && LifeCycle(own, staging, target)
    requires forall p :: !Mounted(w, p)
    requires Step(Run(w, own[..2]), own[2]).outcome == Success
    requires Step(Run(w, own[..3]), own[3]).outcome == Success
    ensures forall p :: !Mounted(Run(w, own), p)
  {
    LifeCycleMounts(w, own, staging, target);
    RunExtend(w, own[..2], own[2]);
    assert own[..2] + [own[2]] == own[..3];
    CleanLast(Run(w, own[..2]), own[2], {staging});
    LifeCycleEnds(w, own, staging);
  }

  lemma LifeCycleEnds(w: World, own: seq<Call>, staging: string)
    requires |own| == 4 && own[3].req.Unstage? && own[3].req.stagingPath == staging
    requires Consistent(Run(w, own[..3])) && Step(Run(w, own[..3]), own[3]).outcome == Success
    requires forall p | p !in {staging} :: !Mounted(Run(w, own[..3]), p)
    ensures forall p :: !Mounted(Run(w, own), p)
  {
    RunExtend(w, own[..3], own[3]);
    assert own[..3] + [own[3]] == own;
    CleanLast(Run(w, own[..3]), own[3], {});
  }

  lemma LifeCycleMounts(w: World, own: seq<Call>, staging: string, target: string)
    requires Consistent(w) && LifeCycle(own, staging, target)
    requires forall p :: !Mounted(w, p)
    ensures Consistent(Run(w, own[..2]))
    ensures forall p | p !in {staging, target} :: !Mounted(Run(w, own[..2]), p)
  {
    RunExtend(w, [], own[0]);
    RunExtend(w, own[..1], own[1]);
    assert [] + [own[0]] == own[..1] && own[..1] + [own[1]] == own[..2];
    MountsOnlyThere(w, own[0], {staging, target});
    MountsOnlyThere(Run(w, own[..1]), own[1], {staging, target});
  }

  lemma {:induction false} OwnAreWithin(h: seq<Call>, keep: iset<string>)
    ensures forall c | c in Own(h, keep) :: Within(c.req, keep)
  {
    if h != [] {
      OwnAreWithin(h[..|h| - 1], keep);
    }
  }

  lemma {:induction false} OwnOutcomeAt(w: World, own: seq<Call>, keep: iset<string>, k: nat)
    requires k < |own|
    requires forall c | c in own :: Within(c.req, keep)
    ensures |OwnOutcomes(w, own, keep)| == |own|
    ensures OwnOutcomes(w, own, keep)[k] == Step(Run(w, own[..k]), own[k]).outcome
  {
    var front := own[..|own| - 1];
    if k < |front| {
      OwnOutcomeAt(w, front, keep, k);
      assert front[..k] == own[..k];
    } else if front != [] {
      OwnOutcomeAt(w, front, keep, 0);
    }
  }

  /** A volume that comes and goes, whatever other volumes do meanwhile on other paths,
      leaves the mount table as if it had never been there. */
  lemma LifeCycleLeavesNoTrace(w: World, h: seq<Call>, keep: iset<string>, staging: string, target: string)
    requires Consistent(w) && w.faults == [] && Separated(h, keep)
    requires forall p | p in keep :: !Mounted(w, p)
    requires LifeCycle(Own(h, keep), staging, target)
    requires var outcomes := OwnOutcomes(w, h, keep);
             |outcomes| == 4 && outcomes[2] == Success && outcomes[3] == Success
    ensures Run(w, h).mounts == Run(w, Others(h, keep)).mounts
  {
    Isolation(w, h, keep);
    var inside, own := Restrict(w, keep), Own(h, keep);
    assert forall p :: p in inside.mounts ==> Mounted(w, p) && p in keep;
    assert inside.mounts == map[];
    assert Consistent(inside);
    OwnAreWithin(h, keep);
    OwnOutcomeAt(inside, own, keep, 2);
    OwnOutcomeAt(inside, own, keep, 3);
    LifeCycleCleans(inside, own, staging, target);
    forall p | p in keep
      ensures !Mounted(Run(w, h), p)
    {
      assert !Mounted(Restrict(Run(w, h), keep), p);
    }
    Conservation(w, h, keep);
  }
}
