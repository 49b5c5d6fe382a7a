/** Creating, deleting and expanding volumes: repeated requests, and what a success means. */
module VolumeLifecycle {
  import opened Common
  import opened Provider
  import opened Text
  import opened Capacity
  import opened Inventory
  import opened VolumeParameters
  import opened Controller
  import opened ControllerRuns
  import Cloud

  // ---- CreateVolume ---------------------------------------------------------------------

  /** The size, in GiB, that a create request normalises to. */
  function NormalisedSize(req: CreateRequest): int
    requires Accepts(req)
  {
    BytesToGiB(RequestedCapacity(req.range, req.parameters[ProfileKey]).value)
  }

  /** A successful create answers for a volume that is there, under the requested name and
      with exactly the normalised size. */
  lemma CreatedMeansThere(a: Account, cfg: Config, req: CreateRequest, source: ContentSource, env: Env)
      returns (v: Cloud.VolumeEntry)
    requires Created(a, cfg, req, source, env).result.Ok?
    ensures CreateObjection(req, source, env.session).None?
    ensures var done := Created(a, cfg, req, source, env);
            && v in done.account.volumes && v.name == req.name
            && v.body.capacity == Some(NormalisedSize(req))
            && done.result.value.volumeID == v.id == done.result.value.context.volumeID
            && done.result.value.capacityBytes == Wrap64(NormalisedSize(req) * GIB)
  {
    var spec := Resolve(req, cfg.resourceGroup);
    v := FoundOrMadeMeansThere(a, cfg, spec, source, env);
  }

  lemma FoundOrMadeMeansThere(a: Account, cfg: Config, spec: VolumeSpec, source: ContentSource, env: Env)
      returns (v: Cloud.VolumeEntry)
    requires spec.capacity.Some? && spec.name != ""
    requires FoundOrMade(a, cfg, spec, source, env).result.Ok?
    ensures var done := FoundOrMade(a, cfg, spec, source, env);
            && v in done.account.volumes && v.name == spec.name && v.body.capacity == spec.capacity
            && done.result.value.volumeID == v.id == done.result.value.context.volumeID
            && done.result.value.capacityBytes == Wrap64(spec.capacity.value * GIB)
  {
    var found := CheckIfVolumeExists(a, Some(spec.name), "", env.lookup);
    if found.Ok? && found.value.Some? {
      v := found.value.value;
    } else {
      v := NewVolume(spec, source, env.issued, cfg);
      assert (a.volumes + [v])[|a.volumes|] == v;
    }
  }

  /** For a well posed request the answer states the normalised size in bytes: the least
      multiple of a GiB that is at least the size asked for and the profile's minimum. */
  lemma CreatedSizeIsLeastAdequate(a: Account, cfg: Config, req: CreateRequest, source: ContentSource, env: Env)
    requires Created(a, cfg, req, source, env).result.Ok?
    requires ProfileKey in req.parameters ==> WellPosed(req.range, req.parameters[ProfileKey])
    ensures ProfileKey in req.parameters
    ensures var bytes := Created(a, cfg, req, source, env).result.value.capacityBytes;
            var profile := req.parameters[ProfileKey];
            && Adequate(bytes, req.range, profile)
            && forall other: int {:trigger Adequate(other, req.range, profile)} ::
                 Adequate(other, req.range, profile) ==> bytes <= other
  {
    var v := CreatedMeansThere(a, cfg, req, source, env);
    var profile := req.parameters[ProfileKey];
    CapacityIsLeastAdequate(req.range, profile);
    MultipleSurvivesGiB(RequestedCapacity(req.range, profile).value);
  }

  /** The answer of a create request when its name is taken: nothing changes, and it
      succeeds exactly when the size there is the normalised one. */
  lemma CreateOverExisting(a: Account, cfg: Config, req: CreateRequest, source: ContentSource, env: Env,
                           v: Cloud.VolumeEntry)
    requires UniqueNames(a.volumes) && v in a.volumes && v.name == req.name
    requires CreateObjection(req, source, env.session).None? && env.lookup.Accurate?
    ensures var again := Created(a, cfg, req, source, env);
            && again.account == a
            && (again.result.Ok? <==> v.body.capacity == Some(NormalisedSize(req)))
            && (again.result.Ok? ==>
                  again.result.value.volumeID == v.id
                  && again.result.value.capacityBytes == Wrap64(NormalisedSize(req) * GIB)
                  && again.result.value.context.tags == Join(v.body.tags, ',')
                  && Describes(again.result.value, v, Overridden(req.secrets, req.parameters, RegionKey), cfg))
            && (again.result.Err? ==> again.result.error == VolumeAlreadyExists)
  {
    NameFindsIt(a.volumes, v);
    FoundOverExisting(a, cfg, Resolve(req, cfg.resourceGroup), source, env, v);
  }

  lemma FoundOverExisting(a: Account, cfg: Config, spec: VolumeSpec, source: ContentSource, env: Env,
                          v: Cloud.VolumeEntry)
    requires spec.capacity.Some? && spec.name != "" && env.lookup.Accurate?
    requires ByName(a.volumes, spec.name).Some? && a.volumes[ByName(a.volumes, spec.name).value] == v
    ensures FoundOrMade(a, cfg, spec, source, env) == Reply(a, ExistingAnswer(v, spec, cfg))
  {
  }

  /** A first answer, the account before the second request, and the second answer: it
      changes nothing, and repeats the first if the size is the same. */
  predicate AnswersAlike(first: Reply<VolumeResponse>, between: Account, second: Reply<VolumeResponse>,
                         sameSize: bool) {
    && second.account == between
    && (sameSize ==>
          first.result.Ok? && second.result.Ok?
          && second.result.value.volumeID == first.result.value.volumeID
          && second.result.value.capacityBytes == first.result.value.capacityBytes)
    && (!sameSize ==> second.result == Err(VolumeAlreadyExists))
  }

  /** Idempotency. Whatever requests come in between, as long as none deletes or expands
      the volume and names stay apart, asking again for the same name and size returns
      the same volume with the same size and makes nothing; another size is refused and
      changes nothing. */
  lemma CreateIsIdempotent(a: Account, cfg: Config, req: CreateRequest, source: ContentSource, env: Env,
                           ops: seq<Op>, again: CreateRequest, source': ContentSource, env': Env)
    requires WellFormed(a) && NamesApart(a)
    requires a.rejectsDuplicates || (env.lookup.Accurate? && forall op | op in ops :: LooksTruly(op))
    requires Created(a, cfg, req, source, env).result.Ok?
    requires forall op | op in ops && (op.DeleteVolume? || op.ExpandVolume?) ::
               op.id != Created(a, cfg, req, source, env).result.value.volumeID
    requires again.name == req.name
    requires CreateObjection(again, source', env'.session).None? && env'.lookup.Accurate?
    ensures Accepts(req) && Accepts(again)
    ensures AnswersAlike(Created(a, cfg, req, source, env),
                         Run(Created(a, cfg, req, source, env).account, cfg, ops),
                         Created(Run(Created(a, cfg, req, source, env).account, cfg, ops), cfg, again, source', env'),
                         NormalisedSize(again) == NormalisedSize(req))
  {
    var v := CreatedMeansThere(a, cfg, req, source, env);
    var op := CreateVolume(req, source, env);
    var first := Apply(a, cfg, op);
    ApplyIsStep(a, cfg, op);
    ApplyTouchesOneId(a, cfg, op);
    ApplyKeepsNames(a, cfg, op);
    VolumeLasts(first, cfg, ops, v);
    RunKeepsNames(first, cfg, ops);
    CreateOverExisting(Run(first, cfg, ops), cfg, again, source', env', v);
  }

  function Appended(before: Option<string>, more: Option<string>): Option<string> {
    if before.Some? && more.Some? then Some(before.value + "," + more.value)
    else if before.Some? then before
    else more
  }

  function Trimmed(text: Option<string>): Option<string> {
    if text.GetOr("") == "" then None else Some(TrimSpace(text.value))
  }

  /** The class tags, the secret tags and the extra labels as given, trimmed, those that are
      there with commas between them. */
  function LabelOfTags(req: CreateRequest, extraLabels: string): string {
    Appended(Appended(Trimmed(NonEmpty(req.parameters, TagsKey)), Trimmed(NonEmpty(req.secrets, TagsKey))),
             Trimmed(Some(extraLabels))).GetOr("")
  }

  /** The answer about a volume just made is labelled with the class tags, the secret tags
      and the extra labels, whether or not the provider keeps tags. */
  lemma NewVolumeIsLabelled(a: Account, cfg: Config, req: CreateRequest, source: ContentSource, env: Env)
    requires Makes(a, req, source, env) && env.act.Fine?
    ensures Created(a, cfg, req, source, env).result.Ok?
    ensures Created(a, cfg, req, source, env).result.value.context.tags == LabelOfTags(req, cfg.extraLabels)
  {
    AskedTagsAreLabel(req, cfg);
    MadeIsLabelled(a, cfg, Resolve(req, cfg.resourceGroup), source, env);
  }

  lemma AskedTagsAreLabel(req: CreateRequest, cfg: Config)
    requires Accepts(req)
    ensures TagLabel(AskedTags(Resolve(req, cfg.resourceGroup), cfg)) == LabelOfTags(req, cfg.extraLabels)
  {
    TagRoundTrip(req, cfg.resourceGroup);
    var asked, extra := Resolve(req, cfg.resourceGroup).tags, TagsOf(cfg.extraLabels);
    assert asked == TagsIn(req.parameters) + TagsIn(req.secrets);
    assert TagsIn(req.parameters) != [] <==> NonEmpty(req.parameters, TagsKey).Some?;
    assert TagsIn(req.secrets) != [] <==> NonEmpty(req.secrets, TagsKey).Some?;
    LabelsJoin(asked, cfg.extraLabels);
    assert asked == [] ==> TagLabel(asked) == "";
  }

  /** Adding the extra labels to some tags. */
  lemma LabelsJoin(tags: seq<string>, extraLabels: string)
    ensures extraLabels == "" ==> TagLabel(tags + TagsOf(extraLabels)) == TagLabel(tags)
    ensures extraLabels != "" && tags == [] ==> TagLabel(tags + TagsOf(extraLabels)) == TrimSpace(extraLabels)
    ensures extraLabels != "" && tags != [] ==>
              TagLabel(tags + TagsOf(extraLabels)) == TagLabel(tags) + "," + TrimSpace(extraLabels)
  {
    var extra := TagsOf(extraLabels);
    if extraLabels == "" {
      assert tags + extra == tags;
    } else {
      JoinUndoesSplit(TrimSpace(extraLabels), ',');
      if tags == [] {
        assert tags + extra == extra;
      } else {
        JoinAppend(tags, extra, ',');
      }
    }
  }

  lemma MadeIsLabelled(a: Account, cfg: Config, spec: VolumeSpec, source: ContentSource, env: Env)
    requires spec.capacity.Some? && spec.name != "" && env.act.Fine?
    requires env.lookup.Misreports? || ByName(a.volumes, spec.name).None?
    requires Cloud.Issuable(a.volumes, NewVolume(spec, source, env.issued, cfg), a.rejectsDuplicates)
    ensures var done := FoundOrMade(a, cfg, spec, source, env);
            done.result.Ok? && done.result.value.context.tags == TagLabel(AskedTags(spec, cfg))
            && Describes(done.result.value, NewVolume(spec, source, env.issued, cfg), spec.region, cfg)
  {
  }

  /** The answer says of a volume what the account holds of it; the region is the requested
      one, or else the driver's own. */
  predicate Describes(answer: VolumeResponse, v: Cloud.VolumeEntry, region: string, cfg: Config) {
    && answer.volumeID == v.id == answer.context.volumeID
    && answer.context.crn == v.body.crn && answer.context.clusterID == cfg.clusterID
    && answer.context.zone == v.body.az
    && answer.context.iops.GetOr("") == v.body.iops
    && answer.source.GetOr("") == v.body.snapshotID
    && (region != "" ==> answer.context.region == region)
    && (region == "" ==> answer.context.region == cfg.region)
  }

  /** A volume just made has the normalised size, lies in the resolved zone, has the IOPS
      asked for where the profile takes them, comes from the snapshot asked for, and is
      described by the answer. */
  lemma NewVolumeIsAsAsked(a: Account, cfg: Config, req: CreateRequest, source: ContentSource, env: Env)
      returns (v: Cloud.VolumeEntry)
    requires Makes(a, req, source, env) && env.act.Fine?
    ensures var done := Created(a, cfg, req, source, env);
            && done.account.volumes == a.volumes + [v]
            && done.result.Ok?
            && Describes(done.result.value, v, Overridden(req.secrets, req.parameters, RegionKey), cfg)
    ensures v.id == env.issued.id && v.name == req.name && v.body.az == ResolvedZone(req)
    ensures v.body.capacity == Some(NormalisedSize(req)) && v.body.crn == env.issued.crn
    ensures ProfileKey in req.parameters
    ensures v.body.iops == if TakesIops(req.parameters[ProfileKey]) && RequestedIops(req).Some?
                           then RequestedIops(req).value else env.issued.iops
    ensures v.body.tags == if env.issued.keepsTags then AskedTags(Resolve(req, cfg.resourceGroup), cfg) else []
    ensures source.FromSnapshot? && !NamesByCRN(source) ==> v.body.snapshotID == source.id
    ensures source.NoSource? ==> v.body.snapshotID == ""
  {
    var spec := Resolve(req, cfg.resourceGroup);
    v := NewVolume(spec, source, env.issued, cfg);
    CreateEffect(a, cfg, req, source, env);
    MadeIsLabelled(a, cfg, spec, source, env);
  }

  // ---- A transient lookup error ---------------------------------------------------------------

  const REQUEST := CreateRequest(
    "claim", None, [VolumeCapability(SingleNodeWriter, Block)],
    map[ProfileKey := "general-purpose", ZoneKey := "zone-1"], map[], [])

  function Issuing(id: string, lookup: Cloud.Lookup): Env {
    Env(Opened, lookup, Fine, Issue(id, "crn", "3000", true, "", 0, true))
  }

  lemma RequestIsFine()
    ensures CreateObjection(REQUEST, NoSource, Opened).None?
    ensures Resolve(REQUEST, "group").name == "claim"
  {
    assert SUPPORTED_PROFILES[1] == "general-purpose";
    assert ValidParameters(REQUEST.parameters);
    var zone := "zone-1";
    assert zone[0] == 'z';
    assert DRIVER_MODES[0] == SingleNodeWriter;
  }

  /** From any account in which the name is free: a retry whose lookup fails, however the
      failure is classified, makes a second volume of the same name if the provider allows it. */
  lemma RetryDuplicates(a: Account, cfg: Config, req: CreateRequest, source: ContentSource, env: Env, env': Env)
    requires ByName(a.volumes, req.name).None? && !a.rejectsDuplicates
    requires CreateObjection(req, source, env.session).None? && CreateObjection(req, source, env'.session).None?
    requires !env.act.Fails? && !env'.act.Fails? && env'.lookup.Misreports?
    requires env.issued.id != "" && env'.issued.id != "" && env.issued.id != env'.issued.id
    requires ById(a.volumes, env.issued.id).None? && ById(a.volumes, env'.issued.id).None?
    ensures var once := Created(a, cfg, req, source, env).account;
            var twice, n := Created(once, cfg, req, source, env').account.volumes, |a.volumes|;
            && |twice| == n + 2 && twice[..n] == a.volumes
            && twice[n].name == twice[n + 1].name == req.name && twice[n].id != twice[n + 1].id
  {
    MadeUnderName(a, cfg, req, source, env);
    var once := Created(a, cfg, req, source, env).account;
    assert once.volumes == a.volumes + [once.volumes[|a.volumes|]];
    assert ById(once.volumes, env'.issued.id).None?;
    MadeUnderName(once, cfg, req, source, env');
  }

  lemma MadeUnderName(a: Account, cfg: Config, req: CreateRequest, source: ContentSource, env: Env)
    requires Makes(a, req, source, env)
    ensures var b := Created(a, cfg, req, source, env).account;
            && |b.volumes| == |a.volumes| + 1 && b.volumes[..|a.volumes|] == a.volumes
            && b.volumes[|a.volumes|].id == env.issued.id && b.volumes[|a.volumes|].name == req.name
            && b.rejectsDuplicates == a.rejectsDuplicates
  {
    CreateEffect(a, cfg, req, source, env);
  }

  /** Concretely: one storage class, one claim, one unreachable lookup. */
  lemma MisreportedLookupDuplicates(kind: ErrorType)
    ensures var once := Created(Cloud.EMPTY_ACCOUNT, CONFIG, REQUEST, NoSource, Issuing("v1", Cloud.Accurate)).account;
            var again := Issuing("v2", Cloud.Misreports(kind));
            var twice := Created(once, CONFIG, REQUEST, NoSource, again).account.volumes;
            |twice| == 2 && twice[0].name == twice[1].name && twice[0].id != twice[1].id
  {
    RequestIsFine();
    assert "v1" != "v2" by {
      assert "v1"[1] != "v2"[1];
    }
    RetryDuplicates(Cloud.EMPTY_ACCOUNT, CONFIG, REQUEST, NoSource,
                    Issuing("v1", Cloud.Accurate), Issuing("v2", Cloud.Misreports(kind)));
  }

  // ---- DeleteVolume ---------------------------------------------------------------------------

  /** A truthful, successful delete leaves the id absent; any successful delete changes
      nothing else. It succeeds over a volume that stays exactly when the lookup said
      "not found" about a volume that is there. */
  lemma DeleteConverges(a: Account, id: string, env: Env)
    requires WellFormed(a) && Deleted(a, id, env).result.Ok?
    ensures SameBut(a.volumes, Deleted(a, id, env).account.volumes, id)
    ensures Deleted(a, id, env).account.snapshots == a.snapshots
    ensures HasId(Deleted(a, id, env).account.volumes, id)
            <==> HasId(a.volumes, id) && env.lookup.Misreports? && CountsAsMissing(env.lookup.kind)
  {
    var at := ById(a.volumes, id);
    if at.Some? {
      RemovingKeeps(a.volumes, at.value);
    }
  }

  /** One volume, and an account that holds nothing else. */
  function Holding(id: string, capacity: int): Account {
    var body := Cloud.VolumeBody(Some(capacity), "3000", "zone-1", [], "crn", "");
    Cloud.EMPTY_ACCOUNT.(volumes := [Entry(id, "claim", body)])
  }

  /** Concretely: an unreachable lookup, a success, and a volume that stays. */
  lemma MisreportedLookupKeepsVolume()
    ensures Deleted(Holding("v1", 10), "v1", Issuing("", Cloud.Misreports(RetrivalFailed)))
            == Reply(Holding("v1", 10), Ok(()))
    ensures HasId(Holding("v1", 10).volumes, "v1")
  {
    assert Holding("v1", 10).volumes[0].id == "v1";
  }

  /** Deleting what is not there, told truthfully, succeeds without asking the provider. */
  lemma DeleteOfAbsent(a: Account, id: string, env: Env)
    requires id != "" && !HasId(a.volumes, id)
    requires env.session == Opened && env.lookup.Accurate?
    ensures Deleted(a, id, env) == Reply(a, Ok(()))
  {
    assert ById(a.volumes, id).None?;
  }

  function DeletesOf(id: string, envs: seq<Env>): seq<Op> {
    seq(|envs|, i requires 0 <= i < |envs| => DeleteVolume(id, envs[i]))
  }

  /** Any number of repeats of a delete succeed, change nothing and reach no provider delete. */
  lemma {:induction false} RepeatedDeletesDoNothing(a: Account, cfg: Config, id: string, envs: seq<Env>)
    requires id != "" && !HasId(a.volumes, id)
    requires forall env | env in envs :: env.session == Opened && env.lookup.Accurate?
    ensures Run(a, cfg, DeletesOf(id, envs)) == a
    ensures forall env | env in envs :: Deleted(a, id, env).result.Ok?
    decreases |envs|
  {
    forall env | env in envs
      ensures Deleted(a, id, env) == Reply(a, Ok(()))
    {
      DeleteOfAbsent(a, id, env);
    }
    if envs != [] {
      var ops := DeletesOf(id, envs);
      assert ops[0] == DeleteVolume(id, envs[0]);
      assert ops[1..] == DeletesOf(id, envs[1..]);
      RepeatedDeletesDoNothing(a, cfg, id, envs[1..]);
    }
  }

  /** After a truthful delete the id stays gone through any run that does not issue it again. */
  lemma DeletedStaysDeleted(a: Account, cfg: Config, id: string, env: Env, ops: seq<Op>)
    requires WellFormed(a) && Deleted(a, id, env).result.Ok? && env.lookup.Accurate?
    requires forall op | op in ops && op.CreateVolume? :: op.env.issued.id != id
    ensures !HasId(Run(Deleted(a, id, env).account, cfg, ops).volumes, id)
  {
    DeleteConverges(a, id, env);
    ApplyTouchesOneId(a, cfg, DeleteVolume(id, env));
    AbsenceLasts(Deleted(a, id, env).account, cfg, ops, id);
  }

  // ---- ControllerExpandVolume -------------------------------------------------------------------

  /** A request that rounds up without overflow. */
  predicate RoundsUp(v: Cloud.VolumeEntry, bytes: int64) {
    v.body.capacity.Some? || bytes <= LARGEST_EXACT
  }

  /** A successful expansion never shrinks the volume, overshoots by less than a GiB when it
      sets the size, and touches nothing else. It leaves at least the requested size, except
      exactly when the volume's size was not known and the request overflows. */
  lemma ExpandGrantsEnough(a: Account, id: string, bytes: int64, env: Env, v: Cloud.VolumeEntry)
      returns (grown: Cloud.VolumeEntry)
    requires WellFormed(a) && v in a.volumes && v.id == id
    requires v.body.capacity.Some? ==> v.body.capacity.value >= 0
    requires Expanded(a, id, bytes, env).result.Ok?
    ensures grown in Expanded(a, id, bytes, env).account.volumes
    ensures grown == v.(body := v.body.(capacity := grown.body.capacity)) && grown.body.capacity.Some?
    ensures var size := grown.body.capacity.value;
            && (v.body.capacity.Some? ==> size >= v.body.capacity.value)
            && (size * GIB >= bytes <==> RoundsUp(v, bytes))
            && (0 <= bytes && RoundsUp(v, bytes) && v.body.capacity != Some(size) ==> size * GIB < bytes + GIB)
    ensures Expanded(a, id, bytes, env).result.value == bytes
    ensures SameBut(a.volumes, Expanded(a, id, bytes, env).account.volumes, id)
  {
    IdFindsIt(a.volumes, v);
    var k := ById(a.volumes, id).value;
    ApplyTouchesOneId(a, CONFIG, ExpandVolume(id, bytes, env));
    var after := Expanded(a, id, bytes, env).account.volumes;
    grown := after[k];
    GrantIsCeiling(bytes);
  }

  /** What is granted for a number of bytes, in GiB. */
  lemma GrantIsCeiling(bytes: int64)
    ensures var gib := TruncatedDiv(Wrap64(bytes + GIB - 1), GIB);
            && (bytes > LARGEST_EXACT ==> gib * GIB < 0)
            && (bytes <= LARGEST_EXACT ==> gib * GIB >= bytes)
            && (0 <= bytes <= LARGEST_EXACT ==> gib >= 0 && gib * GIB < bytes + GIB)
            && (bytes < 0 ==> gib * GIB > bytes)
  {
    var x := bytes + GIB - 1;
    if bytes > LARGEST_EXACT {
      assert Wrap64(x) == x - 2 * TWO_63;
    } else {
      WrapKeeps(x);
      CeilingBounds(bytes);
      if x < 0 {
        assert -x == -x / GIB * GIB + (-x) % GIB;
      }
    }
  }

  /** The answer of a successful expansion is the size that is there exactly when the request
      is GiB-aligned and set the size without overflow, or both are zero; otherwise it
      understates it, or, on overflow of an unknown size, overstates it. */
  lemma AnswerIsSizeExactlyWhen(a: Account, id: string, bytes: int64, env: Env, v: Cloud.VolumeEntry)
      returns (grown: Cloud.VolumeEntry)
    requires WellFormed(a) && v in a.volumes && v.id == id
    requires v.body.capacity.Some? ==> v.body.capacity.value >= 0
    requires Expanded(a, id, bytes, env).result.Ok?
    ensures grown in Expanded(a, id, bytes, env).account.volumes && grown.id == id && grown.body.capacity.Some?
    ensures Expanded(a, id, bytes, env).result.value <= grown.body.capacity.value * GIB <==> RoundsUp(v, bytes)
    ensures Expanded(a, id, bytes, env).result.value == grown.body.capacity.value * GIB
            <==> match v.body.capacity
                 case Some(size) => (bytes > size && bytes % GIB == 0) || (bytes == 0 == size)
                 case None => 0 <= bytes <= LARGEST_EXACT && bytes % GIB == 0
  {
    grown := ExpandGrantsEnough(a, id, bytes, env, v);
    IdFindsIt(a.volumes, v);
    var after := Expanded(a, id, bytes, env).account;
    ApplyTouchesOneId(a, CONFIG, ExpandVolume(id, bytes, env));
    IdFindsIt(after.volumes, grown);
    GrantIsCeiling(bytes);
    var size := grown.body.capacity.value;
    if bytes <= size * GIB < bytes + GIB {
      AlignedExactly(bytes, size);
    }
  }

  lemma AlignedExactly(bytes: int, gib: int)
    requires bytes <= gib * GIB < bytes + GIB
    ensures gib * GIB == bytes <==> bytes % GIB == 0
  {
    if bytes % GIB == 0 {
      assert bytes == bytes / GIB * GIB;
      assert gib == bytes / GIB;
    }
  }

  /** Concretely: one byte more than ten GiB is granted eleven, and answered unrounded. */
  lemma UnalignedExpansionIsUnderstated()
    ensures Expanded(Holding("v1", 10), "v1", 10 * GIB + 1, Issuing("", Cloud.Accurate))
            == Reply(Holding("v1", 11), Ok(10 * GIB + 1))
  {
    WrapKeeps(11 * GIB);
    assert TruncatedDiv(11 * GIB, GIB) == 11;
    assert Holding("v1", 10).volumes[..0] == [];
    assert ById(Holding("v1", 10).volumes, "v1") == Some(0);
    assert Holding("v1", 10).volumes[0 := Holding("v1", 11).volumes[0]] == Holding("v1", 11).volumes;
  }
}
