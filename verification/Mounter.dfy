/** The node's mount table and the calls the driver makes on it. Every call may fail;
    a list of faults, one consumed per call, decides how each one goes, and an empty
    list means that nothing goes wrong. The contracts assumed of the mount library
    are the bodies of these functions. */
module Mounter {

  /** One entry of the mount table: what was mounted, the device behind it, and how. */
  datatype MountRecord = MountRecord(source: string, device: string, fsType: string, options: seq<string>)

  /** How one call goes. A call that fails part way through can leave its effect
      behind, a mount then having whatever options were applied so far. */
  datatype Fault = Fine | Fail | FailAfter(leftover: seq<string>) | Corrupt

  /** What does not change: the device nodes, where links resolve to, whether umount
      reports an unmounted target as success, and whether resolving links can fail. */
  datatype Host = Host(devices: set<string>, links: map<string, string>, safeUmount: bool, symlinksResolve: bool)

  /** Mounts at one path form a stack, the oldest first. Paths without a mount have no
      entry. */
  datatype World = World(host: Host, mounts: map<string, seq<MountRecord>>, paths: set<string>, faults: seq<Fault>)

  function StackAt(w: World, p: string): seq<MountRecord> {
    if p in w.mounts then w.mounts[p] else []
  }

  predicate Mounted(w: World, p: string) {
    StackAt(w, p) != []
  }

  function WithStack(w: World, p: string, stack: seq<MountRecord>): World {
    w.(mounts := if stack == [] then w.mounts - {p} else w.mounts[p := stack])
  }

  function Popped(stack: seq<MountRecord>): seq<MountRecord> {
    if stack == [] then [] else stack[..|stack| - 1]
  }

  function ResolveLink(w: World, p: string): string {
    if p in w.host.links then w.host.links[p] else p
  }

  /** The device a bind mount of `p` exposes: that of the topmost mount there, or the
      path itself when nothing is mounted. */
  function Backing(w: World, p: string): string {
    if Mounted(w, p) then StackAt(w, p)[|StackAt(w, p)| - 1].device else ResolveLink(w, p)
  }

  function NextFault(w: World): Fault {
    if w.faults == [] then Fine else w.faults[0]
  }

  function Consumed(w: World): World {
    w.(faults := if w.faults == [] then [] else w.faults[1..])
  }

  // ---- Questions ------------------------------------------------------------------

  datatype ProbeError = NoError | NotExist | Corrupted | OtherError

  datatype Answer = Answer(world: World, yes: bool, error: ProbeError)

  function PathExists(w: World, p: string): Answer {
    match NextFault(w)
    case Fine => Answer(Consumed(w), p in w.paths || p in w.host.devices, NoError)
    case Corrupt => Answer(Consumed(w), true, Corrupted)
    case _ => Answer(Consumed(w), false, OtherError)
  }

  /** Answers "not a mount point" along with any error, as the Linux mounter does. */
  function IsLikelyNotMountPoint(w: World, p: string): Answer {
    if NextFault(w) != Fine then Answer(Consumed(w), true, OtherError)
    else if p !in w.paths then Answer(Consumed(w), true, NotExist)
    else Answer(Consumed(w), !Mounted(w, p), NoError)
  }

  datatype Lookup = Lookup(world: World, text: string, failed: bool)

  /** The device of the first entry for the path, or nothing. */
  function GetDeviceNameFromMount(w: World, p: string): Lookup {
    if NextFault(w) != Fine then Lookup(Consumed(w), "", true)
    else Lookup(Consumed(w), if Mounted(w, p) then StackAt(w, p)[0].device else "", false)
  }

  function EvalSymlinks(w: World, p: string): Lookup {
    if NextFault(w) != Fine && !w.host.symlinksResolve then Lookup(Consumed(w), "", true)
    else Lookup(Consumed(w), ResolveLink(w, p), false)
  }

  // ---- Changes ----------------------------------------------------------------------

  datatype Done = Done(world: World, failed: bool)

  /** Creating a directory or an empty file. */
  function MakePath(w: World, p: string): Done {
    var created := Consumed(w).(paths := w.paths + {p});
    match NextFault(w)
    case Fine => Done(created, false)
    case FailAfter(_) => Done(created, true)
    case _ => Done(Consumed(w), true)
  }

  function PushMount(w: World, record: MountRecord, target: string): Done {
    match NextFault(w)
    case Fine =>
      if target in w.paths then Done(WithStack(Consumed(w), target, StackAt(w, target) + [record]), false)
      else Done(Consumed(w), true)
    case FailAfter(leftover) =>
      Done(if target in w.paths
           then WithStack(Consumed(w), target, StackAt(w, target) + [record.(options := leftover)])
           else Consumed(w),
           true)
    case _ => Done(Consumed(w), true)
  }

  /** A bind mount, the only kind the driver makes directly: it exposes whatever is
      behind the source. */
  function Mount(w: World, source: string, target: string, fsType: string, options: seq<string>): Done {
    PushMount(w, MountRecord(source, Backing(w, source), fsType, options), target)
  }

  /** Formats the device if need be, then mounts it. */
  function FormatAndMount(w: World, source: string, target: string, fsType: string, options: seq<string>): Done {
    PushMount(w, MountRecord(source, ResolveLink(w, source), fsType, options + ["defaults"]), target)
  }

  function Unmount(w: World, p: string): Done {
    var popped := WithStack(Consumed(w), p, Popped(StackAt(w, p)));
    match NextFault(w)
    case Fine => Done(popped, !Mounted(w, p) && !w.host.safeUmount)
    case FailAfter(_) => Done(popped, true)
    case _ => Done(Consumed(w), true)
  }

  function Resize(w: World): Done {
    Done(Consumed(w), NextFault(w) != Fine)
  }

  datatype Removal = Removal(world: World, missing: bool, failed: bool)

  /** Removing a path; a mount point is busy and stays. */
  function Remove(w: World, p: string): Removal {
    if NextFault(w) != Fine || Mounted(w, p) then Removal(Consumed(w), false, true)
    else if p !in w.paths then Removal(Consumed(w), true, true)
    else Removal(Consumed(w).(paths := w.paths - {p}), false, false)
  }

  // ---- The library's cleanup ----------------------------------------------------------

  datatype Checked = Checked(world: World, notMounted: bool, failed: bool)

  /** Not a mount point: removed, unless the removal fails. */
  function RemovePathIfNotMountPoint(w: World, p: string): Checked {
    var probe := IsLikelyNotMountPoint(w, p);
    if probe.error == NotExist then Checked(probe.world, true, false)
    else if probe.error != NoError then Checked(probe.world, probe.yes, true)
    else if probe.yes then
      var removal := Remove(probe.world, p);
      Checked(removal.world, true, removal.failed)
    else Checked(probe.world, false, false)
  }

  function DoCleanup(w: World, p: string, corrupted: bool): Done {
    if corrupted || w.host.safeUmount then
      var unmounted := Unmount(w, p);
      if unmounted.failed then unmounted
      else
        var removal := Remove(unmounted.world, p);
        Done(removal.world, removal.failed && !removal.missing)
    else
      var first := RemovePathIfNotMountPoint(w, p);
      if first.failed || first.notMounted then Done(first.world, first.failed)
      else
        var unmounted := Unmount(first.world, p);
        if unmounted.failed then unmounted
        else
          var second := RemovePathIfNotMountPoint(unmounted.world, p);
          Done(second.world, !second.notMounted || second.failed)
  }

  /** Unmounts a path and deletes it. */
  function CleanupMountPoint(w: World, p: string): Done {
    var seen := PathExists(w, p);
    if !seen.yes && seen.error == NoError then Done(seen.world, false)
    else if seen.error != NoError && seen.error != Corrupted then Done(seen.world, true)
    else DoCleanup(seen.world, p, seen.error == Corrupted)
  }

  // ---- What cleanup guarantees ---------------------------------------------------------

  /** Nothing is mounted where there is no path, no entry is empty, and no link
      resolves to nothing. */
  predicate Consistent(w: World) {
    && (forall p | p in w.mounts :: w.mounts[p] != [] && p in w.paths)
    && (forall p | p in w.host.links :: w.host.links[p] != "")
  }

  /** Two worlds alike except for the mounts and the existence of the paths in `own`. */
  ghost predicate OnlyAt(w: World, w': World, own: set<string>) {
    && w'.host == w.host
    && forall q | q !in own :: StackAt(w', q) == StackAt(w, q) && (q in w'.paths <==> q in w.paths)
  }

  lemma OnlyAtTransitive(a: World, b: World, c: World, own: set<string>)
    requires OnlyAt(a, b, own) && OnlyAt(b, c, own)
    ensures OnlyAt(a, c, own)
  {
  }

  /** A call that keeps the mounts: it may only create or delete `p`. */
  ghost predicate KeepsMounts(w: World, w': World, p: string) {
    Consistent(w') && OnlyAt(w, w', {p}) && StackAt(w', p) == StackAt(w, p)
  }

  lemma RemoveIfNotMountPointSummary(w: World, p: string)
    requires Consistent(w)
    ensures var checked := RemovePathIfNotMountPoint(w, p);
            && KeepsMounts(w, checked.world, p)
            && (checked.notMounted && !checked.failed ==> !Mounted(w, p) && p !in checked.world.paths)
  {
  }

  lemma RemoveSummary(w: World, p: string)
    requires Consistent(w)
    ensures var removal := Remove(w, p);
            && KeepsMounts(w, removal.world, p)
            && (!removal.failed || removal.missing ==> !Mounted(w, p) && p !in removal.world.paths)
  {
  }

  lemma UnmountSummary(w: World, p: string)
    requires Consistent(w)
    ensures var done := Unmount(w, p);
            && Consistent(done.world)
            && OnlyAt(w, done.world, {p})
            && (StackAt(done.world, p) == StackAt(w, p) || StackAt(done.world, p) == Popped(StackAt(w, p)))
  {
  }

  lemma DoCleanupSummary(w: World, p: string, corrupted: bool)
    requires Consistent(w)
    ensures var done := DoCleanup(w, p, corrupted);
            && Consistent(done.world)
            && OnlyAt(w, done.world, {p})
            && (StackAt(done.world, p) == StackAt(w, p) || StackAt(done.world, p) == Popped(StackAt(w, p)))
            && (!done.failed ==> !Mounted(done.world, p) && p !in done.world.paths)
  {
    if corrupted || w.host.safeUmount {
      var unmounted := Unmount(w, p);
      UnmountSummary(w, p);
      if !unmounted.failed {
        RemoveSummary(unmounted.world, p);
        OnlyAtTransitive(w, unmounted.world, Remove(unmounted.world, p).world, {p});
      }
    } else {
      var first := RemovePathIfNotMountPoint(w, p);
      RemoveIfNotMountPointSummary(w, p);
      if !first.failed && !first.notMounted {
        var unmounted := Unmount(first.world, p);
        UnmountSummary(first.world, p);
        OnlyAtTransitive(w, first.world, unmounted.world, {p});
        if !unmounted.failed {
          RemoveIfNotMountPointSummary(unmounted.world, p);
          OnlyAtTransitive(w, unmounted.world, RemovePathIfNotMountPoint(unmounted.world, p).world, {p});
        }
      }
    }
  }

  /** Cleanup touches one path, takes at most the topmost mount, and reports success
      only when the path is unmounted and gone. */
  lemma CleanupSummary(w: World, p: string)
    requires Consistent(w)
    ensures var done := CleanupMountPoint(w, p);
            && Consistent(done.world)
            && OnlyAt(w, done.world, {p})
            && (StackAt(done.world, p) == StackAt(w, p) || StackAt(done.world, p) == Popped(StackAt(w, p)))
            && (!done.failed ==> !Mounted(done.world, p) && p !in done.world.paths)
  {
    var seen := PathExists(w, p);
    assert OnlyAt(w, seen.world, {p}) && Consistent(seen.world);
    if seen.yes && (seen.error == NoError || seen.error == Corrupted) {
      DoCleanupSummary(seen.world, p, seen.error == Corrupted);
      OnlyAtTransitive(w, seen.world, CleanupMountPoint(w, p).world, {p});
    }
  }

  /** Without faults the topmost mount goes, and cleanup succeeds exactly when it was
      the only one. */
  lemma CleanupFaultFree(w: World, p: string)
    requires Consistent(w) && w.faults == []
    ensures var done := CleanupMountPoint(w, p);
            && done.world.faults == []
            && StackAt(done.world, p) == Popped(StackAt(w, p))
            && (!done.failed <==> |StackAt(w, p)| <= 1)
  {
  }
}
