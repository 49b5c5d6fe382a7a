/** Any sequence of controller requests, one after another, with whatever the provider
    does during each: what names and ids keep, and when repeating a request is harmless. */
module ControllerRuns {
  import opened Capacity
  import opened Inventory
  import opened SnapshotHandle
  import opened VolumeParameters
  import opened Controller
  import Cloud

  datatype Op =
    | CreateVolume(req: CreateRequest, source: ContentSource, env: Env)
    | DeleteVolume(id: string, env: Env)
    | ExpandVolume(id: string, bytes: int64, env: Env)
    | CreateSnapshot(name: string, volumeID: string, env: Env)
    | DeleteSnapshot(handle: string, env: Env)

  function Apply(a: Account, cfg: Config, op: Op): Account {
    match op
    case CreateVolume(req, source, env) => Created(a, cfg, req, source, env).account
    case DeleteVolume(id, env) => Deleted(a, id, env).account
    case ExpandVolume(id, bytes, env) => Expanded(a, id, bytes, env).account
    case CreateSnapshot(name, volumeID, env) => SnapshotCreated(a, name, volumeID, env).account
    case DeleteSnapshot(handle, env) => SnapshotDeleted(a, handle, env).account
  }

  function Run(a: Account, cfg: Config, ops: seq<Op>): Account
    decreases |ops|
  {
    if ops == [] then a else Run(Apply(a, cfg, ops[0]), cfg, ops[1..])
  }

  /** A configuration for concrete runs. */
  const CONFIG := Config("cluster", "region", "group", "account", "")

  // ---- What one request can do to a listing ----------------------------------------------

  ghost predicate AddsAtMost<T>(before: seq<Entry<T>>, after: seq<Entry<T>>, id: string, name: string,
                                lookup: Cloud.Lookup, rejectsDuplicates: bool) {
    after == before ||
    (&& |after| == |before| + 1 && after[..|before|] == before
     && after[|before|].id == id && after[|before|].name == name
     && ById(before, id).None?
     && (lookup.Accurate? || rejectsDuplicates ==> ByName(before, name).None?))
  }

  ghost predicate RemovesAtMost<T>(before: seq<Entry<T>>, after: seq<Entry<T>>, id: string) {
    after == before || exists k: nat :: k < |before| && before[k].id == id && after == Without(before, k)
  }

  ghost predicate ChangesAtMost<T>(before: seq<Entry<T>>, after: seq<Entry<T>>, id: string) {
    after == before ||
    exists k: nat :: k < |before| == |after| && before[k].id == id
                     && after == before[k := before[k].(body := after[k].body)]
  }

  ghost predicate VolumesStep(a: Account, b: Account, op: Op) {
    match op
    case CreateVolume(req, _, env) =>
      AddsAtMost(a.volumes, b.volumes, env.issued.id, req.name, env.lookup, a.rejectsDuplicates)
    case DeleteVolume(id, _) => RemovesAtMost(a.volumes, b.volumes, id)
    case ExpandVolume(id, _, _) => ChangesAtMost(a.volumes, b.volumes, id)
    case _ => b.volumes == a.volumes
  }

  ghost predicate SnapshotsStep(a: Account, b: Account, op: Op) {
    match op
    case CreateSnapshot(name, _, env) =>
      AddsAtMost(a.snapshots, b.snapshots, env.issued.id, name, env.lookup, a.rejectsDuplicates)
    case DeleteSnapshot(handle, _) => RemovesAtMost(a.snapshots, b.snapshots, ParseHandle(handle).snapshotID)
    case _ => b.snapshots == a.snapshots
  }

  lemma ApplyIsStep(a: Account, cfg: Config, op: Op)
    ensures var b := Apply(a, cfg, op);
            VolumesStep(a, b, op) && SnapshotsStep(a, b, op) && b.rejectsDuplicates == a.rejectsDuplicates
  {
    match op
    case CreateVolume(req, source, env) => CreateIsStep(a, cfg, req, source, env);
    case DeleteVolume(id, env) => DeleteIsStep(a, id, env);
    case ExpandVolume(id, bytes, env) => ExpandIsStep(a, id, bytes, env);
    case CreateSnapshot(name, volumeID, env) => SnapshotCreateIsStep(a, name, volumeID, env);
    case DeleteSnapshot(handle, env) => SnapshotDeleteIsStep(a, handle, env);
  }

  lemma SnapshotDeleteIsStep(a: Account, handle: string, env: Env)
    ensures var b := SnapshotDeleted(a, handle, env).account;
            && RemovesAtMost(a.snapshots, b.snapshots, ParseHandle(handle).snapshotID)
            && b.volumes == a.volumes && b.rejectsDuplicates == a.rejectsDuplicates
  {
  }

  lemma DeleteIsStep(a: Account, id: string, env: Env)
    ensures var b := Deleted(a, id, env).account;
            && RemovesAtMost(a.volumes, b.volumes, id)
            && b.snapshots == a.snapshots && b.rejectsDuplicates == a.rejectsDuplicates
  {
  }

  lemma ExpandIsStep(a: Account, id: string, bytes: int64, env: Env)
    ensures var b := Expanded(a, id, bytes, env).account;
            && ChangesAtMost(a.volumes, b.volumes, id)
            && b.snapshots == a.snapshots && b.rejectsDuplicates == a.rejectsDuplicates
  {
    var k := ById(a.volumes, id);
    if k.Some? {
      var b := Expanded(a, id, bytes, env).account;
      assert b.volumes == a.volumes
          || b.volumes == a.volumes[k.value := a.volumes[k.value].(body := b.volumes[k.value].body)];
    }
  }

  lemma SnapshotCreateIsStep(a: Account, name: string, volumeID: string, env: Env)
    ensures var b := SnapshotCreated(a, name, volumeID, env).account;
            && AddsAtMost(a.snapshots, b.snapshots, env.issued.id, name, env.lookup, a.rejectsDuplicates)
            && b.volumes == a.volumes && b.rejectsDuplicates == a.rejectsDuplicates
  {
  }

  /** When a create request makes a volume: not refused, not found, granted and issuable. */
  predicate Makes(a: Account, req: CreateRequest, source: ContentSource, env: Env) {
    && CreateObjection(req, source, env.session).None?
    && (env.lookup.Misreports? || ByName(a.volumes, req.name).None?)
    && !env.act.Fails?
    && env.issued.id != "" && ById(a.volumes, env.issued.id).None?
    && (a.rejectsDuplicates ==> ByName(a.volumes, req.name).None?)
  }

  lemma FoundOrMadeEffect(a: Account, cfg: Config, spec: VolumeSpec, source: ContentSource, env: Env)
    requires spec.capacity.Some? && spec.name != ""
    ensures var b := FoundOrMade(a, cfg, spec, source, env).account;
            && b.snapshots == a.snapshots && b.rejectsDuplicates == a.rejectsDuplicates
            && b.deletes == a.deletes
            && b.volumes ==
                 if (env.lookup.Misreports? || ByName(a.volumes, spec.name).None?)
                    && !env.act.Fails?
                    && Cloud.Issuable(a.volumes, NewVolume(spec, source, env.issued, cfg), a.rejectsDuplicates)
                 then a.volumes + [NewVolume(spec, source, env.issued, cfg)] else a.volumes
  {
  }

  lemma CreateEffect(a: Account, cfg: Config, req: CreateRequest, source: ContentSource, env: Env)
    ensures var b := Created(a, cfg, req, source, env).account;
            && b.snapshots == a.snapshots && b.rejectsDuplicates == a.rejectsDuplicates
            && b.volumes ==
                 if Makes(a, req, source, env)
                 then a.volumes + [NewVolume(Resolve(req, cfg.resourceGroup), source, env.issued, cfg)] else a.volumes
  {
    if CreateObjection(req, source, env.session).None? {
      FoundOrMadeEffect(a, cfg, Resolve(req, cfg.resourceGroup), source, env);
    }
  }

  lemma CreateIsStep(a: Account, cfg: Config, req: CreateRequest, source: ContentSource, env: Env)
    ensures var b := Created(a, cfg, req, source, env).account;
            && AddsAtMost(a.volumes, b.volumes, env.issued.id, req.name, env.lookup, a.rejectsDuplicates)
            && b.snapshots == a.snapshots && b.rejectsDuplicates == a.rejectsDuplicates
  {
    CreateEffect(a, cfg, req, source, env);
  }

  // ---- Ids ---------------------------------------------------------------------------------

  ghost predicate WellFormed(a: Account) {
    UniqueIds(a.volumes) && UniqueIds(a.snapshots)
  }

  lemma StepKeepsIds<T(!new)>(before: seq<Entry<T>>, after: seq<Entry<T>>, id: string, name: string,
                              lookup: Cloud.Lookup, rejectsDuplicates: bool)
    requires UniqueIds(before)
    requires || AddsAtMost(before, after, id, name, lookup, rejectsDuplicates)
             || RemovesAtMost(before, after, id) || ChangesAtMost(before, after, id)
    ensures UniqueIds(after) && SameBut(before, after, id)
  {
    if after != before {
      if AddsAtMost(before, after, id, name, lookup, rejectsDuplicates) {
        AddingKeepsIds(before, after[|before|]);
        assert after == before + [after[|before|]];
      } else if RemovesAtMost(before, after, id) {
        var k: nat :| k < |before| && before[k].id == id && after == Without(before, k);
        RemovingKeeps(before, k);
      } else {
        var k: nat :| k < |before| == |after| && before[k].id == id
                      && after == before[k := before[k].(body := after[k].body)];
        ChangingKeeps(before, k, after[k].body);
      }
    }
  }

  /** The id under which a request can touch a volume, if any. */
  function VolumeTarget(op: Op): string {
    match op
    case CreateVolume(_, _, env) => env.issued.id
    case DeleteVolume(id, _) => id
    case ExpandVolume(id, _, _) => id
    case _ => ""
  }

  function SnapshotTarget(op: Op): string {
    match op
    case CreateSnapshot(_, _, env) => env.issued.id
    case DeleteSnapshot(handle, _) => ParseHandle(handle).snapshotID
    case _ => ""
  }

  /** No request touches anything but the entry under its own id, and ids stay unique. */
  lemma ApplyTouchesOneId(a: Account, cfg: Config, op: Op)
    requires WellFormed(a)
    ensures WellFormed(Apply(a, cfg, op))
    ensures SameBut(a.volumes, Apply(a, cfg, op).volumes, VolumeTarget(op))
    ensures SameBut(a.snapshots, Apply(a, cfg, op).snapshots, SnapshotTarget(op))
  {
    var b := Apply(a, cfg, op);
    ApplyIsStep(a, cfg, op);
    if op.CreateVolume? || op.DeleteVolume? || op.ExpandVolume? {
      StepKeepsIds(a.volumes, b.volumes, VolumeTarget(op),
                   if op.CreateVolume? then op.req.name else "", op.env.lookup, a.rejectsDuplicates);
    } else {
      StepKeepsIds(a.snapshots, b.snapshots, SnapshotTarget(op),
                   if op.CreateSnapshot? then op.name else "", op.env.lookup, a.rejectsDuplicates);
    }
  }

  // ---- Names ---------------------------------------------------------------------------------

  ghost predicate NamesApart(a: Account) {
    UniqueNames(a.volumes) && UniqueNames(a.snapshots)
  }

  /** A create request whose lookup by name tells the truth; other requests do not matter. */
  predicate LooksTruly(op: Op) {
    op.CreateVolume? || op.CreateSnapshot? ==> op.env.lookup.Accurate?
  }

  lemma StepKeepsNames<T(!new)>(before: seq<Entry<T>>, after: seq<Entry<T>>, id: string, name: string,
                                lookup: Cloud.Lookup, rejectsDuplicates: bool)
    requires UniqueIds(before) && UniqueNames(before)
    requires lookup.Accurate? || rejectsDuplicates
    requires || AddsAtMost(before, after, id, name, lookup, rejectsDuplicates)
             || RemovesAtMost(before, after, id) || ChangesAtMost(before, after, id)
    ensures UniqueNames(after)
  {
    if after != before {
      if AddsAtMost(before, after, id, name, lookup, rejectsDuplicates) {
        AddingKeepsNames(before, after[|before|]);
        assert after == before + [after[|before|]];
      } else if RemovesAtMost(before, after, id) {
        var k: nat :| k < |before| && before[k].id == id && after == Without(before, k);
        RemovingKeeps(before, k);
      } else {
        var k: nat :| k < |before| == |after| && before[k].id == id
                      && after == before[k := before[k].(body := after[k].body)];
        ChangingKeeps(before, k, after[k].body);
      }
    }
  }

  lemma ApplyKeepsNames(a: Account, cfg: Config, op: Op)
    requires WellFormed(a) && NamesApart(a) && (a.rejectsDuplicates || LooksTruly(op))
    ensures NamesApart(Apply(a, cfg, op))
  {
    var b := Apply(a, cfg, op);
    ApplyIsStep(a, cfg, op);
    if op.CreateVolume? || op.DeleteVolume? || op.ExpandVolume? {
      StepKeepsNames(a.volumes, b.volumes, VolumeTarget(op), if op.CreateVolume? then op.req.name else "",
                     if op.CreateVolume? then op.env.lookup else Cloud.Accurate, a.rejectsDuplicates);
    } else {
      StepKeepsNames(a.snapshots, b.snapshots, SnapshotTarget(op), if op.CreateSnapshot? then op.name else "",
                     if op.CreateSnapshot? then op.env.lookup else Cloud.Accurate, a.rejectsDuplicates);
    }
  }

  /** Over any run, ids stay unique; and so do the names of volumes and of snapshots if the
      lookups by name tell the truth or the provider refuses duplicates. */
  lemma {:induction false} RunKeepsNames(a: Account, cfg: Config, ops: seq<Op>)
    requires WellFormed(a) && NamesApart(a)
    requires a.rejectsDuplicates || forall op | op in ops :: LooksTruly(op)
    ensures WellFormed(Run(a, cfg, ops)) && NamesApart(Run(a, cfg, ops))
    ensures Run(a, cfg, ops).rejectsDuplicates == a.rejectsDuplicates
    decreases |ops|
  {
    if ops != [] {
      ApplyIsStep(a, cfg, ops[0]);
      ApplyTouchesOneId(a, cfg, ops[0]);
      ApplyKeepsNames(a, cfg, ops[0]);
      RunKeepsNames(Apply(a, cfg, ops[0]), cfg, ops[1..]);
    }
  }

  /** One create request breaks uniqueness exactly when its lookup misreports a name that
      is there, and the provider makes the volume all the same. */
  lemma DuplicateExactlyWhen(a: Account, cfg: Config, req: CreateRequest, source: ContentSource, env: Env)
    requires UniqueNames(a.volumes)
    ensures !UniqueNames(Created(a, cfg, req, source, env).account.volumes)
            <==> (&& CreateObjection(req, source, env.session).None?
                  && env.lookup.Misreports? && ByName(a.volumes, req.name).Some? && !a.rejectsDuplicates
                  && !env.act.Fails? && env.issued.id != "" && ById(a.volumes, env.issued.id).None?)
  {
    CreateEffect(a, cfg, req, source, env);
    if Makes(a, req, source, env) {
      AddingKeepsNames(a.volumes, NewVolume(Resolve(req, cfg.resourceGroup), source, env.issued, cfg));
    }
  }

  // ---- Entries that last -----------------------------------------------------------------------

  /** Over any run that does not name it, an entry stays as it is. */
  lemma {:induction false} VolumeLasts(a: Account, cfg: Config, ops: seq<Op>, v: Cloud.VolumeEntry)
    requires WellFormed(a) && v in a.volumes
    requires forall op | op in ops && (op.DeleteVolume? || op.ExpandVolume?) :: op.id != v.id
    ensures WellFormed(Run(a, cfg, ops)) && v in Run(a, cfg, ops).volumes
    decreases |ops|
  {
    if ops != [] {
      var b := Apply(a, cfg, ops[0]);
      ApplyIsStep(a, cfg, ops[0]);
      ApplyTouchesOneId(a, cfg, ops[0]);
      assert v in b.volumes by {
        if ops[0].CreateVolume? {
          assert b.volumes[..|a.volumes|] == a.volumes;
        }
      }
      VolumeLasts(b, cfg, ops[1..], v);
    }
  }

  lemma {:induction false} SnapshotLasts(a: Account, cfg: Config, ops: seq<Op>, s: Cloud.SnapshotEntry)
    requires WellFormed(a) && s in a.snapshots
    requires forall op | op in ops && op.DeleteSnapshot? :: ParseHandle(op.handle).snapshotID != s.id
    ensures WellFormed(Run(a, cfg, ops)) && s in Run(a, cfg, ops).snapshots
    decreases |ops|
  {
    if ops != [] {
      var b := Apply(a, cfg, ops[0]);
      ApplyIsStep(a, cfg, ops[0]);
      ApplyTouchesOneId(a, cfg, ops[0]);
      assert s in b.snapshots by {
        if ops[0].CreateSnapshot? {
          assert b.snapshots[..|a.snapshots|] == a.snapshots;
        }
      }
      SnapshotLasts(b, cfg, ops[1..], s);
    }
  }

  /** What is gone stays gone as long as its id is not issued again. */
  lemma {:induction false} AbsenceLasts(a: Account, cfg: Config, ops: seq<Op>, id: string)
    requires WellFormed(a) && !HasId(a.volumes, id)
    requires forall op | op in ops && op.CreateVolume? :: op.env.issued.id != id
    ensures !HasId(Run(a, cfg, ops).volumes, id)
    decreases |ops|
  {
    if ops != [] {
      var b := Apply(a, cfg, ops[0]);
      ApplyIsStep(a, cfg, ops[0]);
      ApplyTouchesOneId(a, cfg, ops[0]);
      AbsenceLasts(b, cfg, ops[1..], id);
    }
  }
}
