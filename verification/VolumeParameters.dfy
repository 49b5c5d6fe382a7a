/** From a create request to the volume asked of the provider. The storage class
    parameters and the secrets are maps whose iteration order is arbitrary; each
    loop fills in one volume, key by key. `Resolve` says, without any order, what
    the volume must end up as. */
module VolumeParameters {
  import opened Common
  import opened Text
  import opened Capacity

  // ---- The vocabulary of a request ----------------------------------------------

  /** The parameter names the driver knows; `Other` is any name it does not. */
  datatype Key =
    | ProfileKey | ZoneKey | RegionKey | TagsKey | ResourceGroupKey | BillingTypeKey
    | EncryptedKey | EncryptionKeyKey | ClassVersionKey | GenerationKey | IopsKey
    | ThroughputKey | Other(name: string)

  const TRUE_STR := "true"
  const FALSE_STR := "false"
  const UNDEFINED_STR := "undef"
  const ENCRYPTION_KEY_MAX_LEN := 256
  const RESOURCE_GROUP_MAX_LEN := 32
  const ZONE_NAME_MAX_LEN := 63
  const REGION_MAX_LEN := 63
  const CUSTOM_PROFILE := "custom"
  const NODE_ZONE_LABEL := "failure-domain.beta.kubernetes.io/zone"
  const SUPPORTED_PROFILES := ["custom", "general-purpose", "5iops-tier", "10iops-tier", "sdp"]
  const SUPPORTED_FS := ["ext2", "ext3", "ext4", "xfs"]

  type Segments = map<string, string>

  datatype CreateRequest = CreateRequest(
    name: string,
    range: Option<CapacityRange>,
    capabilities: seq<VolumeCapability>,
    parameters: map<Key, string>,
    secrets: map<Key, string>,
    preferred: seq<Option<Segments>>)

  /** The volume as a value. */
  datatype VolumeSpec = VolumeSpec(
    name: string,
    profile: Option<string>,
    capacity: Option<int>,
    iops: Option<string>,
    bandwidth: int,
    az: string,
    region: string,
    tags: seq<string>,
    resourceGroup: Option<string>,
    encryptionKey: Option<string>,
    volumeType: string)

  datatype ParamError =
    | BadParameter(key: Key)
    | MissingProfile
    | BadCapacity(reason: CapacityError)
    | BadSecret(secret: Key)
    | NoCapabilities
    | UnsupportedFsType
    | NoTopology

  // ---- The declarative resolution ------------------------------------------------

  predicate ValidThroughput(value: string) {
    value == "" || ParseInt32(value).Some?
  }

  predicate ValidParameter(key: Key, value: string) {
    match key
    case ProfileKey => value in SUPPORTED_PROFILES
    case ZoneKey => |value| <= ZONE_NAME_MAX_LEN
    case RegionKey => |value| <= REGION_MAX_LEN
    case ResourceGroupKey => |value| <= RESOURCE_GROUP_MAX_LEN
    case EncryptedKey => value == TRUE_STR || value == FALSE_STR
    case EncryptionKeyKey => |value| <= ENCRYPTION_KEY_MAX_LEN
    case ThroughputKey => ValidThroughput(value)
    case Other(_) => false
    case _ => true
  }

  /** Secrets override fewer settings: the profile is not one of them. */
  predicate ValidSecret(key: Key, value: string) {
    match key
    case ProfileKey | BillingTypeKey | ClassVersionKey | GenerationKey => false
    case _ => ValidParameter(key, value)
  }

  /** The value under a key, the empty string counting as absent. */
  function NonEmpty(p: map<Key, string>, key: Key): Option<string> {
    if key in p && p[key] != "" then Some(p[key]) else None
  }

  function TagsOf(text: string): seq<string> {
    if text == "" then [] else Split(TrimSpace(text), ',')
  }

  function TagsIn(p: map<Key, string>): seq<string> {
    TagsOf(NonEmpty(p, TagsKey).GetOr(""))
  }

  function Overridden(secrets: map<Key, string>, parameters: map<Key, string>, key: Key): string {
    if key in secrets then secrets[key] else if key in parameters then parameters[key] else ""
  }

  predicate SaysUnencrypted(p: map<Key, string>) {
    EncryptedKey in p && p[EncryptedKey] == FALSE_STR
  }

  function FirstSegments(preferred: seq<Option<Segments>>): Option<Segments> {
    if preferred == [] then None
    else if preferred[0].Some? then preferred[0]
    else FirstSegments(preferred[1..])
  }

  function FirstFsType(caps: seq<VolumeCapability>): Option<string> {
    if caps == [] then None
    else match caps[0].access
      case MountFs(fsType, _) => Some(fsType)
      case _ => FirstFsType(caps[1..])
  }

  predicate SupportedFsType(fsType: Option<string>) {
    fsType.Some? && fsType.value != "" ==> fsType.value in SUPPORTED_FS
  }

  predicate ValidParameters(p: map<Key, string>) {
    forall k | k in p :: ValidParameter(k, p[k])
  }

  predicate ValidSecrets(p: map<Key, string>) {
    forall k | k in p :: ValidSecret(k, p[k])
  }

  predicate NeedsTopology(req: CreateRequest) {
    TrimSpace(Overridden(req.secrets, req.parameters, ZoneKey)) == ""
  }

  predicate AcceptsSettings(req: CreateRequest) {
    && ValidParameters(req.parameters)
    && ProfileKey in req.parameters
    && RequestedCapacity(req.range, req.parameters[ProfileKey]).Ok?
    && ValidSecrets(req.secrets)
  }

  predicate Accepts(req: CreateRequest) {
    && AcceptsSettings(req)
    && req.capabilities != []
    && SupportedFsType(FirstFsType(req.capabilities))
    && (NeedsTopology(req) ==> FirstSegments(req.preferred).Some?)
  }

  function ZoneOf(segments: Option<Segments>): string {
    if segments.Some? && NODE_ZONE_LABEL in segments.value then segments.value[NODE_ZONE_LABEL] else ""
  }

  function ResolvedZone(req: CreateRequest): string {
    if NeedsTopology(req) then
      ZoneOf(FirstSegments(req.preferred))
    else
      Overridden(req.secrets, req.parameters, ZoneKey)
  }

  /** The key a class settles on, before any secret is looked at. */
  function ClassEncryptionKey(parameters: map<Key, string>): Option<string> {
    if SaysUnencrypted(parameters) then None else NonEmpty(parameters, EncryptionKeyKey)
  }

  function ResolvedEncryptionKey(req: CreateRequest): Option<string> {
    if SaysUnencrypted(req.secrets) then None
    else if NonEmpty(req.secrets, EncryptionKeyKey).Some? then NonEmpty(req.secrets, EncryptionKeyKey)
    else ClassEncryptionKey(req.parameters)
  }

  function ResolvedResourceGroup(req: CreateRequest, configured: string): string {
    var chosen := Overridden(req.secrets, req.parameters, ResourceGroupKey);
    if chosen == "" then configured else chosen
  }

  predicate TakesIops(profile: string) {
    profile == CUSTOM_PROFILE || profile == SDP_PROFILE
  }

  /** The IOPS asked for, before the profile has its say. */
  function RequestedIops(req: CreateRequest): Option<string> {
    if NonEmpty(req.secrets, IopsKey).Some? then NonEmpty(req.secrets, IopsKey)
    else NonEmpty(req.parameters, IopsKey)
  }

  function BandwidthOf(text: Option<string>): Option<int> {
    if text.Some? then ParseInt32(text.value) else None
  }

  function ResolvedBandwidth(req: CreateRequest): int {
    BandwidthOf(NonEmpty(req.secrets, ThroughputKey))
      .GetOr(BandwidthOf(NonEmpty(req.parameters, ThroughputKey)).GetOr(0))
  }

  function ResolvedFsType(caps: seq<VolumeCapability>): string {
    match FirstFsType(caps)
    case None => ""
    case Some(fsType) => if fsType == "" then DEFAULT_FS_TYPE else fsType
  }

  /** What parameters, capacity range and secrets settle, field by field. */
  function Settle(req: CreateRequest, configuredGroup: string): VolumeSpec
    requires AcceptsSettings(req)
  {
    var profile := req.parameters[ProfileKey];
    VolumeSpec(
      req.name,
      Some(profile),
      Some(BytesToGiB(RequestedCapacity(req.range, profile).value)),
      RequestedIops(req),
      ResolvedBandwidth(req),
      Overridden(req.secrets, req.parameters, ZoneKey),
      Overridden(req.secrets, req.parameters, RegionKey),
      TagsIn(req.parameters) + TagsIn(req.secrets),
      Some(ResolvedResourceGroup(req, configuredGroup)),
      ResolvedEncryptionKey(req),
      "")
  }

  /** What an accepted request asks of the provider: the settled volume, with IOPS only
      for the profiles that take them, a zone from the topology if none was given, and
      the file system of the first mount capability. */
  function Resolve(req: CreateRequest, configuredGroup: string): VolumeSpec
    requires Accepts(req)
  {
    Settle(req, configuredGroup).(
      iops := if TakesIops(req.parameters[ProfileKey]) then RequestedIops(req) else None,
      az := ResolvedZone(req),
      volumeType := ResolvedFsType(req.capabilities))
  }

  // ---- One key at a time -----------------------------------------------------------

  /** A volume being filled in, with the last encryption setting seen. */
  datatype Draft = Draft(volume: VolumeSpec, encrypted: string)

  function EmptyVolume(name: string): VolumeSpec {
    VolumeSpec(name, None, None, None, 0, "", "", [], None, None, "")
  }

  function ParameterStep(d: Draft, key: Key, value: string): Draft {
    match key
    case ProfileKey => d.(volume := d.volume.(profile := Some(value)))
    case ZoneKey => d.(volume := d.volume.(az := value))
    case RegionKey => d.(volume := d.volume.(region := value))
    case TagsKey =>
      if value == "" then d else d.(volume := d.volume.(tags := Split(TrimSpace(value), ',')))
    case ResourceGroupKey => d.(volume := d.volume.(resourceGroup := Some(value)))
    case EncryptedKey => d.(encrypted := value)
    case EncryptionKeyKey =>
      if value == "" then d else d.(volume := d.volume.(encryptionKey := Some(value)))
    case IopsKey =>
      if value == "" then d else d.(volume := d.volume.(iops := Some(value)))
    case ThroughputKey =>
      if value == "" then d else d.(volume := d.volume.(bandwidth := ParseInt32(value).GetOr(0)))
    case _ => d
  }

  /** Secrets act alike, except that their tags are appended. */
  function SecretStep(d: Draft, key: Key, value: string): Draft {
    if key == TagsKey && value != "" then
      d.(volume := d.volume.(tags := d.volume.tags + Split(TrimSpace(value), ',')))
    else
      ParameterStep(d, key, value)
  }

  /** The keys of `order` applied first to last. */
  function ParameterFold(d: Draft, p: map<Key, string>, order: seq<Key>): Draft
    requires forall k | k in order :: k in p
  {
    if order == [] then d
    else
      var last := order[|order| - 1];
      ParameterStep(ParameterFold(d, p, order[..|order| - 1]), last, p[last])
  }

  function SecretFold(d: Draft, p: map<Key, string>, order: seq<Key>): Draft
    requires forall k | k in order :: k in p
  {
    if order == [] then d
    else
      var last := order[|order| - 1];
      SecretStep(SecretFold(d, p, order[..|order| - 1]), last, p[last])
  }

  /** What the parameters `p` leave in the draft, whatever order they came in. */
  function ParameterView(name: string, p: map<Key, string>): Draft {
    Draft(
      EmptyVolume(name).(
        profile := if ProfileKey in p then Some(p[ProfileKey]) else None,
        az := if ZoneKey in p then p[ZoneKey] else "",
        region := if RegionKey in p then p[RegionKey] else "",
        tags := TagsIn(p),
        resourceGroup := if ResourceGroupKey in p then Some(p[ResourceGroupKey]) else None,
        encryptionKey := NonEmpty(p, EncryptionKeyKey),
        iops := NonEmpty(p, IopsKey),
        bandwidth := BandwidthOf(NonEmpty(p, ThroughputKey)).GetOr(0)),
      if EncryptedKey in p then p[EncryptedKey] else UNDEFINED_STR)
  }

  /** What the secrets `p` turn the volume `v` into, whatever order they came in. */
  function SecretView(v: VolumeSpec, p: map<Key, string>): Draft {
    Draft(
      v.(
        az := if ZoneKey in p then p[ZoneKey] else v.az,
        region := if RegionKey in p then p[RegionKey] else v.region,
        tags := v.tags + TagsIn(p),
        resourceGroup := if ResourceGroupKey in p then Some(p[ResourceGroupKey]) else v.resourceGroup,
        encryptionKey :=
          if NonEmpty(p, EncryptionKeyKey).Some? then NonEmpty(p, EncryptionKeyKey) else v.encryptionKey,
        iops := if NonEmpty(p, IopsKey).Some? then NonEmpty(p, IopsKey) else v.iops,
        bandwidth := BandwidthOf(NonEmpty(p, ThroughputKey)).GetOr(v.bandwidth)),
      if EncryptedKey in p then p[EncryptedKey] else UNDEFINED_STR)
  }

  /** What follows the secret loop: a missing resource group comes from the
      configuration, and a secret of "false" drops the key. */
  function Configured(v: VolumeSpec, secrets: map<Key, string>, configuredGroup: string): VolumeSpec {
    v.(
      resourceGroup := Some(if v.resourceGroup.GetOr("") == "" then configuredGroup else v.resourceGroup.value),
      encryptionKey := if SaysUnencrypted(secrets) then None else v.encryptionKey)
  }

  function Among(p: map<Key, string>, order: seq<Key>): map<Key, string> {
    map k | k in p && k in order :: p[k]
  }

  predicate Distinct(order: seq<Key>) {
    forall i, j | 0 <= i < j < |order| :: order[i] != order[j]
  }

  lemma AmongExtends(p: map<Key, string>, order: seq<Key>)
    requires order != [] && order[|order| - 1] in p
    ensures var last := order[|order| - 1];
            Among(p, order) == Among(p, order[..|order| - 1])[last := p[last]]
  {
    assert order == order[..|order| - 1] + [order[|order| - 1]];
  }

  lemma ParameterViewStep(name: string, p: map<Key, string>, key: Key, value: string)
    requires key !in p && (key == ThroughputKey ==> ValidThroughput(value))
    ensures ParameterStep(ParameterView(name, p), key, value) == ParameterView(name, p[key := value])
  {
  }

  lemma SecretViewStep(v: VolumeSpec, p: map<Key, string>, key: Key, value: string)
    requires key !in p && key != ProfileKey && (key == ThroughputKey ==> ValidThroughput(value))
    ensures SecretStep(SecretView(v, p), key, value) == SecretView(v, p[key := value])
  {
    if key == TagsKey {
      assert v.tags + TagsIn(p) == v.tags;
    }
  }

  /** Any duplicate-free order over any subset of the parameters gives the view of
      that subset. */
  lemma {:induction false} ParameterFoldIsView(name: string, p: map<Key, string>, order: seq<Key>)
    requires Distinct(order)
    requires forall k | k in order :: k in p && ValidParameter(k, p[k])
    ensures ParameterFold(Draft(EmptyVolume(name), UNDEFINED_STR), p, order)
            == ParameterView(name, Among(p, order))
  {
    if order != [] {
      var front, last := order[..|order| - 1], order[|order| - 1];
      ParameterFoldIsView(name, p, front);
      assert last !in front;
      ParameterViewStep(name, Among(p, front), last, p[last]);
      AmongExtends(p, order);
    }
  }

  /** One more secret. */
  lemma SecretFoldStep(v: VolumeSpec, p: map<Key, string>, order: seq<Key>)
    requires Distinct(order) && order != []
    requires forall k | k in order :: k in p && ValidSecret(k, p[k])
    ensures var front, last := order[..|order| - 1], order[|order| - 1];
            SecretStep(SecretView(v, Among(p, front)), last, p[last]) == SecretView(v, Among(p, order))
  {
    var front, last := order[..|order| - 1], order[|order| - 1];
    assert last !in front;
    SecretViewStep(v, Among(p, front), last, p[last]);
    AmongExtends(p, order);
  }

  lemma {:induction false} SecretFoldIsView(v: VolumeSpec, p: map<Key, string>, order: seq<Key>)
    requires Distinct(order)
    requires forall k | k in order :: k in p && ValidSecret(k, p[k])
    ensures SecretFold(Draft(v, UNDEFINED_STR), p, order) == SecretView(v, Among(p, order))
  {
    if order == [] {
      assert v.tags + [] == v.tags;
    } else {
      var front, last := order[..|order| - 1], order[|order| - 1];
      SecretFoldIsView(v, p, front);
      SecretFoldStep(v, p, order);
    }
  }

  ghost predicate Enumerates(order: seq<Key>, p: map<Key, string>) {
    && Distinct(order)
    && (forall k :: k in order <==> k in p)
  }

  /** Every order over the whole parameter map leaves the same volume and setting. */
  lemma ParameterOrderIsIrrelevant(name: string, p: map<Key, string>, order: seq<Key>)
    requires ValidParameters(p) && Enumerates(order, p)
    ensures ParameterFold(Draft(EmptyVolume(name), UNDEFINED_STR), p, order) == ParameterView(name, p)
  {
    ParameterFoldIsView(name, p, order);
    assert Among(p, order) == p;
  }

  lemma SecretOrderIsIrrelevant(v: VolumeSpec, p: map<Key, string>, order: seq<Key>)
    requires ValidSecrets(p) && Enumerates(order, p)
    ensures SecretFold(Draft(v, UNDEFINED_STR), p, order) == SecretView(v, p)
  {
    SecretFoldIsView(v, p, order);
    assert Among(p, order) == p;
  }

  // ---- The loops ---------------------------------------------------------------------

  /** The volume object both loops write into. */
  class Volume {
    var name: string
    var profile: Option<string>
    var capacity: Option<int>
    var iops: Option<string>
    var bandwidth: int
    var az: string
    var region: string
    var tags: seq<string>
    var resourceGroup: Option<string>
    var encryptionKey: Option<string>
    var volumeType: string

    constructor (name: string)
      ensures Value() == EmptyVolume(name)
    {
      this.name := name;
      profile, capacity, iops, bandwidth := None, None, None, 0;
      az, region, tags, volumeType := "", "", [], "";
      resourceGroup, encryptionKey := None, None;
    }

    function Value(): VolumeSpec
      reads this
    {
      VolumeSpec(name, profile, capacity, iops, bandwidth, az, region, tags,
                 resourceGroup, encryptionKey, volumeType)
    }

    /** One class parameter. A rejected value may leave the volume half written. */
    method ApplyParameter(key: Key, value: string, before: string)
      returns (encrypted: string, ok: bool)
      modifies this
      ensures ok <==> ValidParameter(key, value)
      ensures ok ==> Draft(Value(), encrypted) == ParameterStep(Draft(old(Value()), before), key, value)
    {
      encrypted, ok := before, true;
      match key {
        case ProfileKey =>
          if value in SUPPORTED_PROFILES { profile := Some(value); } else { ok := false; }
        case ZoneKey =>
          if |value| > ZONE_NAME_MAX_LEN { ok := false; } else { az := value; }
        case RegionKey =>
          if |value| > REGION_MAX_LEN { ok := false; } else { region := value; }
        case TagsKey =>
          if value != "" { tags := Split(TrimSpace(value), ','); }
        case ResourceGroupKey =>
          if |value| > RESOURCE_GROUP_MAX_LEN { ok := false; }
          resourceGroup := Some(value);
        case EncryptedKey =>
          if value != TRUE_STR && value != FALSE_STR { ok := false; } else { encrypted := value; }
        case EncryptionKeyKey =>
          if |value| > ENCRYPTION_KEY_MAX_LEN { ok := false; }
          else if value != "" { encryptionKey := Some(value); }
        case IopsKey =>
          if value != "" { iops := Some(value); }
        case ThroughputKey =>
          if value != "" {
            var parsed := ParseInt32(value);
            if parsed.None? { ok := false; } else { bandwidth := parsed.value; }
          }
        case BillingTypeKey =>
        case ClassVersionKey =>
        case GenerationKey =>
        case Other(_) => ok := false;
      }
    }

    /** One secret. */
    method ApplySecret(key: Key, value: string, before: string)
      returns (encrypted: string, ok: bool)
      modifies this
      ensures ok <==> ValidSecret(key, value)
      ensures ok ==> Draft(Value(), encrypted) == SecretStep(Draft(old(Value()), before), key, value)
    {
      encrypted, ok := before, true;
      match key {
        case ResourceGroupKey =>
          if |value| > RESOURCE_GROUP_MAX_LEN { ok := false; } else { resourceGroup := Some(value); }
        case EncryptedKey =>
          if value != TRUE_STR && value != FALSE_STR { ok := false; } else { encrypted := value; }
        case EncryptionKeyKey =>
          if |value| > ENCRYPTION_KEY_MAX_LEN { ok := false; }
          else if value != "" { encryptionKey := Some(value); }
        case TagsKey =>
          if value != "" { tags := tags + Split(TrimSpace(value), ','); }
        case ZoneKey =>
          if |value| > ZONE_NAME_MAX_LEN { ok := false; } else { az := value; }
        case RegionKey =>
          if |value| > REGION_MAX_LEN { ok := false; } else { region := value; }
        case IopsKey =>
          if value != "" { iops := Some(value); }
        case ThroughputKey =>
          if value != "" {
            var parsed := ParseInt32(value);
            if parsed.None? { ok := false; } else { bandwidth := parsed.value; }
          }
        case _ => ok := false;
      }
    }

    /** The parameter loop: any remaining key may come next. */
    method ReadParameters(p: map<Key, string>) returns (encrypted: string, err: Option<ParamError>)
      requires Value() == EmptyVolume(name)
      modifies this
      ensures err.None? <==> ValidParameters(p)
      ensures err.None? ==> Draft(Value(), encrypted) == ParameterView(old(name), p)
      ensures err.Some? ==> err.value.BadParameter? && err.value.key in p
                            && !ValidParameter(err.value.key, p[err.value.key])
    {
      encrypted, err := UNDEFINED_STR, None;
      var remaining := p.Keys;
      ghost var order: seq<Key> := [];
      ghost var start := Draft(Value(), UNDEFINED_STR);
      while remaining != {}
        invariant remaining <= p.Keys && Distinct(order)
        invariant forall k | k in order :: k in p && ValidParameter(k, p[k])
        invariant forall k | k in p :: k in order <==> k !in remaining
        invariant Draft(Value(), encrypted) == ParameterFold(start, p, order)
        decreases remaining
      {
        var key :| key in remaining;
        var ok;
        encrypted, ok := ApplyParameter(key, p[key], encrypted);
        if !ok {
          err := Some(BadParameter(key));
          return;
        }
        assert (order + [key])[..|order|] == order;
        order := order + [key];
        remaining := remaining - {key};
      }
      ParameterOrderIsIrrelevant(old(name), p, order);
    }

    /** The secret loop and what follows it. */
    method OverrideParams(p: map<Key, string>, configuredGroup: string) returns (err: Option<ParamError>)
      modifies this
      ensures err.None? <==> ValidSecrets(p)
      ensures err.None? ==> Value() == Configured(SecretView(old(Value()), p).volume, p, configuredGroup)
      ensures err.Some? ==> err.value.BadSecret? && err.value.secret in p
                            && !ValidSecret(err.value.secret, p[err.value.secret])
    {
      err := None;
      var encrypted := UNDEFINED_STR;
      var remaining := p.Keys;
      ghost var order: seq<Key> := [];
      ghost var start := Draft(Value(), UNDEFINED_STR);
      while remaining != {}
        invariant remaining <= p.Keys && Distinct(order)
        invariant forall k | k in order :: k in p && ValidSecret(k, p[k])
        invariant forall k | k in p :: k in order <==> k !in remaining
        invariant Draft(Value(), encrypted) == SecretFold(start, p, order)
        decreases remaining
      {
        var key :| key in remaining;
        var ok;
        encrypted, ok := ApplySecret(key, p[key], encrypted);
        if !ok {
          err := Some(BadSecret(key));
          return;
        }
        assert (order + [key])[..|order|] == order;
        order := order + [key];
        remaining := remaining - {key};
      }
      SecretOrderIsIrrelevant(old(Value()), p, order);
      if resourceGroup.None? || |resourceGroup.value| < 1 {
        resourceGroup := Some(configuredGroup);
      }
      if encrypted == FALSE_STR {
        encryptionKey := None;
      }
    }
  }

  /** The first preferred topology that has segments. */
  method PickPreferredSegments(preferred: seq<Option<Segments>>) returns (found: Option<Segments>)
    ensures found == FirstSegments(preferred)
  {
    for i := 0 to |preferred|
      invariant FirstSegments(preferred) == FirstSegments(preferred[i..])
    {
      if preferred[i].Some? {
        return preferred[i];
      }
      assert preferred[i..][1..] == preferred[i + 1..];
    }
    found := None;
  }

  /** The file system type of the first mount capability. */
  method PickFsType(caps: seq<VolumeCapability>) returns (fsType: Option<string>, ok: bool)
    ensures ok <==> SupportedFsType(FirstFsType(caps))
    ensures ok ==> (fsType.Some? <==> FirstFsType(caps).Some?)
    ensures ok ==> fsType.GetOr("") == ResolvedFsType(caps)
  {
    for i := 0 to |caps|
      invariant FirstFsType(caps) == FirstFsType(caps[i..])
    {
      assert caps[i..][1..] == caps[i + 1..];
      if caps[i].access.MountFs? {
        var given := caps[i].access.fsType;
        if given == "" {
          return Some(DEFAULT_FS_TYPE), true;
        } else if given in SUPPORTED_FS {
          return Some(given), true;
        } else {
          return None, false;
        }
      }
    }
    fsType, ok := None, true;
  }

  /** The two loops' views, with the capacity step between them, settle the volume. */
  lemma ViewsSettle(req: CreateRequest, configuredGroup: string)
    requires AcceptsSettings(req)
    ensures var draft := ParameterView(req.name, req.parameters);
            var sized := draft.volume.(
              encryptionKey := if draft.encrypted == FALSE_STR then None else draft.volume.encryptionKey,
              capacity := Some(BytesToGiB(RequestedCapacity(req.range, req.parameters[ProfileKey]).value)));
            Configured(SecretView(sized, req.secrets).volume, req.secrets, configuredGroup)
            == Settle(req, configuredGroup)
  {
  }

  /** The checks that follow the secrets: file system type, IOPS and zone. */
  method CompleteVolume(volume: Volume, req: CreateRequest, ghost profile: string)
    returns (err: Option<ParamError>)
    requires volume.profile == Some(profile)
    modifies volume`volumeType, volume`iops, volume`az
    ensures err.None? <==>
              && req.capabilities != []
              && SupportedFsType(FirstFsType(req.capabilities))
              && (TrimSpace(old(volume.az)) == "" ==> FirstSegments(req.preferred).Some?)
    ensures err.None? && FirstFsType(req.capabilities).Some? ==>
              volume.volumeType == ResolvedFsType(req.capabilities)
    ensures err.None? && FirstFsType(req.capabilities).None? ==> volume.volumeType == old(volume.volumeType)
    ensures err.None? ==>
              volume.iops == if TakesIops(profile) then old(volume.iops) else None
    ensures err.None? ==>
              volume.az == if TrimSpace(old(volume.az)) != "" then old(volume.az)
                           else ZoneOf(FirstSegments(req.preferred))
    ensures err.Some? ==> err.value.NoCapabilities? || err.value.UnsupportedFsType? || err.value.NoTopology?
  {
    if |req.capabilities| == 0 {
      return Some(NoCapabilities);
    }
    var fsType, ok := PickFsType(req.capabilities);
    if !ok {
      return Some(UnsupportedFsType);
    }
    if fsType.Some? {
      volume.volumeType := fsType.value;
    }
    if volume.profile.Some? && !TakesIops(volume.profile.value) {
      volume.iops := None;
    }
    if |TrimSpace(volume.az)| == 0 {
      var segments := PickPreferredSegments(req.preferred);
      if segments.None? {
        return Some(NoTopology);
      }
      volume.az := ZoneOf(segments);
    }
    err := None;
  }

  /** An error about one key names a key that is really at fault. */
  predicate Blames(req: CreateRequest, err: ParamError) {
    match err
    case BadParameter(key) => key in req.parameters && !ValidParameter(key, req.parameters[key])
    case BadSecret(key) => key in req.secrets && !ValidSecret(key, req.secrets[key])
    case MissingProfile => ProfileKey !in req.parameters
    case _ => true
  }

  /** Parameters, then capacity, then secrets. */
  method ReadSettings(volume: Volume, req: CreateRequest, configuredGroup: string)
    returns (err: Option<ParamError>)
    requires volume.Value() == EmptyVolume(req.name)
    modifies volume
    ensures err.None? <==> AcceptsSettings(req)
    ensures err.None? ==> volume.Value() == Settle(req, configuredGroup)
    ensures err.Some? ==> Blames(req, err.value)
  {
    var encrypted;
    encrypted, err := volume.ReadParameters(req.parameters);
    if err.Some? {
      return;
    }
    if encrypted == FALSE_STR {
      volume.encryptionKey := None;
    }
    if volume.profile.None? {
      err := Some(MissingProfile);
      return;
    }
    var bytes := RequestedCapacity(req.range, volume.profile.value);
    if bytes.Err? {
      err := Some(BadCapacity(bytes.error));
      return;
    }
    volume.capacity := Some(BytesToGiB(bytes.value));
    err := volume.OverrideParams(req.secrets, configuredGroup);
    if err.None? {
      ViewsSettle(req, configuredGroup);
    }
  }

  /** Reading a create request: it is accepted exactly when the declarative rules accept
      it, and the volume is then exactly the declared one. */
  method GetVolumeParameters(req: CreateRequest, configuredGroup: string)
    returns (volume: Volume, err: Option<ParamError>)
    ensures fresh(volume)
    ensures err.None? <==> Accepts(req)
    ensures err.None? ==> volume.Value() == Resolve(req, configuredGroup)
    ensures err.Some? ==> Blames(req, err.value)
  {
    volume := new Volume(req.name);
    err := ReadSettings(volume, req, configuredGroup);
    if err.Some? {
      return;
    }
    err := CompleteVolume(volume, req, req.parameters[ProfileKey]);
  }

  // ---- What the resolution guarantees ---------------------------------------------------

  /** Later code dereferences the profile, the capacity and the resource group; the
      provider then rejects an IOPS on a profile that does not take it, and an empty
      resource group. */
  lemma ResolvedFieldsAreSet(req: CreateRequest, configuredGroup: string)
    requires Accepts(req)
    ensures var v := Resolve(req, configuredGroup);
            && v.profile.Some? && v.profile.value in SUPPORTED_PROFILES
            && v.capacity.Some? && v.resourceGroup.Some?
            && (configuredGroup != "" ==> v.resourceGroup.value != "")
            && (v.iops.Some? ==> TakesIops(v.profile.value) && v.iops.value != "")
  {
    assert ValidParameter(ProfileKey, req.parameters[ProfileKey]);
  }

  lemma ResolvedFieldsAreInRange(req: CreateRequest, configuredGroup: string)
    requires Accepts(req)
    ensures |Resolve(req, configuredGroup).region| <= REGION_MAX_LEN
    ensures var key := Resolve(req, configuredGroup).encryptionKey;
            key.Some? ==> 0 < |key.value| <= ENCRYPTION_KEY_MAX_LEN
    ensures var fsType := Resolve(req, configuredGroup).volumeType;
            fsType != "" ==> fsType in SUPPORTED_FS
  {
    assert DEFAULT_FS_TYPE == SUPPORTED_FS[2];
  }

  /** The whole process on a request, with the loops' keys coming in the orders given: the
      class parameters, the class switching its key off, the capacity, the secrets, and
      what follows them. */
  function Processed(req: CreateRequest, configuredGroup: string, capacity: Option<int>,
                     classOrder: seq<Key>, secretOrder: seq<Key>): VolumeSpec
    requires forall k | k in classOrder :: k in req.parameters
    requires forall k | k in secretOrder :: k in req.secrets
  {
    var draft := ParameterFold(Draft(EmptyVolume(req.name), UNDEFINED_STR), req.parameters, classOrder);
    var sized := draft.volume.(
      encryptionKey := if draft.encrypted == FALSE_STR then None else draft.volume.encryptionKey,
      capacity := capacity);
    var overridden := SecretFold(Draft(sized, UNDEFINED_STR), req.secrets, secretOrder);
    var v := overridden.volume;
    v.(resourceGroup := if v.resourceGroup.GetOr("") == "" then Some(configuredGroup) else v.resourceGroup,
       encryptionKey := if overridden.encrypted == FALSE_STR then None else v.encryptionKey)
  }

  ghost predicate AnyOrders(req: CreateRequest, classOrder: seq<Key>, secretOrder: seq<Key>) {
    && ValidParameters(req.parameters) && Enumerates(classOrder, req.parameters)
    && ValidSecrets(req.secrets) && Enumerates(secretOrder, req.secrets)
  }

  /** Whatever the orders, the process ends where the two views end. */
  lemma ProcessedIsViews(req: CreateRequest, configuredGroup: string, capacity: Option<int>,
                         classOrder: seq<Key>, secretOrder: seq<Key>)
    requires AnyOrders(req, classOrder, secretOrder)
    ensures var draft := ParameterView(req.name, req.parameters);
            var sized := draft.volume.(
              encryptionKey := if draft.encrypted == FALSE_STR then None else draft.volume.encryptionKey,
              capacity := capacity);
            Processed(req, configuredGroup, capacity, classOrder, secretOrder)
            == Configured(SecretView(sized, req.secrets).volume, req.secrets, configuredGroup)
  {
    ParameterOrderIsIrrelevant(req.name, req.parameters, classOrder);
    var draft := ParameterView(req.name, req.parameters);
    var sized := draft.volume.(
      encryptionKey := if draft.encrypted == FALSE_STR then None else draft.volume.encryptionKey,
      capacity := capacity);
    SecretOrderIsIrrelevant(sized, req.secrets, secretOrder);
  }

  /** Who decides the encryption key, whatever the orders: a secret "false", then the
      secret's key, then a class "false", then the class's key. */
  lemma EncryptionPrecedence(req: CreateRequest, configuredGroup: string, capacity: Option<int>,
                             classOrder: seq<Key>, secretOrder: seq<Key>)
    requires AnyOrders(req, classOrder, secretOrder)
    ensures var key := Processed(req, configuredGroup, capacity, classOrder, secretOrder).encryptionKey;
            var s, p := req.secrets, req.parameters;
            key == if EncryptedKey in s && s[EncryptedKey] == FALSE_STR then None
                   else if EncryptionKeyKey in s && s[EncryptionKeyKey] != "" then Some(s[EncryptionKeyKey])
                   else if EncryptedKey in p && p[EncryptedKey] == FALSE_STR then None
                   else if EncryptionKeyKey in p && p[EncryptionKeyKey] != "" then Some(p[EncryptionKeyKey])
                   else None
  {
    ProcessedIsViews(req, configuredGroup, capacity, classOrder, secretOrder);
  }

  /** Who decides zone, region and resource group: the secret if there is one, even an empty
      one, else the class; an empty resource group then gives way to the configured one. */
  lemma PlacementPrecedence(req: CreateRequest, configuredGroup: string, capacity: Option<int>,
                            classOrder: seq<Key>, secretOrder: seq<Key>)
    requires AnyOrders(req, classOrder, secretOrder)
    ensures var v := Processed(req, configuredGroup, capacity, classOrder, secretOrder);
            var s, p := req.secrets, req.parameters;
            && (ZoneKey in s ==> v.az == s[ZoneKey])
            && (ZoneKey !in s && ZoneKey in p ==> v.az == p[ZoneKey])
            && (RegionKey in s ==> v.region == s[RegionKey])
            && (RegionKey !in s && RegionKey in p ==> v.region == p[RegionKey])
            && (ResourceGroupKey in s && s[ResourceGroupKey] != "" ==> v.resourceGroup == Some(s[ResourceGroupKey]))
            && (ResourceGroupKey in s && s[ResourceGroupKey] == "" ==> v.resourceGroup == Some(configuredGroup))
            && (ResourceGroupKey !in s && ResourceGroupKey in p && p[ResourceGroupKey] != "" ==>
                  v.resourceGroup == Some(p[ResourceGroupKey]))
            && (ResourceGroupKey !in s && (ResourceGroupKey in p ==> p[ResourceGroupKey] == "") ==>
                  v.resourceGroup == Some(configuredGroup))
  {
    ProcessedIsViews(req, configuredGroup, capacity, classOrder, secretOrder);
  }

  /** An accepted request is settled by the process, in any orders. */
  lemma ProcessedIsSettled(req: CreateRequest, configuredGroup: string, classOrder: seq<Key>, secretOrder: seq<Key>)
    requires AcceptsSettings(req) && AnyOrders(req, classOrder, secretOrder)
    ensures var capacity := Some(BytesToGiB(RequestedCapacity(req.range, req.parameters[ProfileKey]).value));
            Processed(req, configuredGroup, capacity, classOrder, secretOrder) == Settle(req, configuredGroup)
  {
    var capacity: Option<int> := Some(BytesToGiB(RequestedCapacity(req.range, req.parameters[ProfileKey]).value));
    ProcessedIsViews(req, configuredGroup, capacity, classOrder, secretOrder);
    ViewsSettle(req, configuredGroup);
  }

  /** A secret of "true" does not bring back a key the class switched off, in any orders;
      only a key among the secrets can. */
  lemma SecretTrueDoesNotRestoreClassKey(req: CreateRequest, configuredGroup: string, capacity: Option<int>,
                                         classOrder: seq<Key>, secretOrder: seq<Key>)
    requires AnyOrders(req, classOrder, secretOrder) && SaysUnencrypted(req.parameters)
    requires !SaysUnencrypted(req.secrets)
    ensures Processed(req, configuredGroup, capacity, classOrder, secretOrder).encryptionKey.Some?
            <==> EncryptionKeyKey in req.secrets && req.secrets[EncryptionKeyKey] != ""
  {
    EncryptionPrecedence(req, configuredGroup, capacity, classOrder, secretOrder);
  }

  /** Who decides IOPS and throughput: a secret that is not empty, else the class; and the
      profile is the class's alone. */
  lemma PerformancePrecedence(req: CreateRequest, configuredGroup: string, capacity: Option<int>,
                              classOrder: seq<Key>, secretOrder: seq<Key>)
    requires AnyOrders(req, classOrder, secretOrder)
    ensures var v := Processed(req, configuredGroup, capacity, classOrder, secretOrder);
            var s, p := req.secrets, req.parameters;
            && v.name == req.name && v.capacity == capacity
            && v.profile == (if ProfileKey in p then Some(p[ProfileKey]) else None)
            && v.iops == (if IopsKey in s && s[IopsKey] != "" then Some(s[IopsKey])
                          else if IopsKey in p && p[IopsKey] != "" then Some(p[IopsKey])
                          else None)
            && (ThroughputKey in s && s[ThroughputKey] != "" ==> ParseInt32(s[ThroughputKey]) == Some(v.bandwidth))
            && ((ThroughputKey in s ==> s[ThroughputKey] == "") && ThroughputKey in p && p[ThroughputKey] != "" ==>
                  ParseInt32(p[ThroughputKey]) == Some(v.bandwidth))
            && ((ThroughputKey in s ==> s[ThroughputKey] == "") && (ThroughputKey in p ==> p[ThroughputKey] == "") ==>
                  v.bandwidth == 0)
  {
    ProcessedIsViews(req, configuredGroup, capacity, classOrder, secretOrder);
    assert ThroughputKey in req.secrets ==> ValidSecret(ThroughputKey, req.secrets[ThroughputKey]);
    assert ThroughputKey in req.parameters ==> ValidParameter(ThroughputKey, req.parameters[ThroughputKey]);
  }

  // ---- Acceptance by the fields of the request --------------------------------------------------

  /** The first capability that asks for a file system. */
  predicate FirstMountAt(caps: seq<VolumeCapability>, k: nat) {
    k < |caps| && caps[k].access.MountFs? && forall j | 0 <= j < k :: !caps[j].access.MountFs?
  }

  lemma {:induction false} FirstFsTypeIs(caps: seq<VolumeCapability>)
    ensures FirstFsType(caps).None? <==> forall j | 0 <= j < |caps| :: !caps[j].access.MountFs?
    ensures forall k: nat | FirstMountAt(caps, k) :: FirstFsType(caps) == Some(caps[k].access.fsType)
  {
    if caps != [] && !caps[0].access.MountFs? {
      FirstFsTypeIs(caps[1..]);
      assert forall j | 0 < j < |caps| :: caps[j] == caps[1..][j - 1];
      forall k: nat | FirstMountAt(caps, k)
        ensures FirstFsType(caps) == Some(caps[k].access.fsType)
      {
        assert FirstMountAt(caps[1..], k - 1);
      }
    }
  }

  /** The first preferred topology that has segments. */
  predicate FirstSegmentsAt(preferred: seq<Option<Segments>>, k: nat) {
    k < |preferred| && preferred[k].Some? && forall j | 0 <= j < k :: preferred[j].None?
  }

  lemma {:induction false} FirstSegmentsIs(preferred: seq<Option<Segments>>)
    ensures FirstSegments(preferred).None? <==> forall j | 0 <= j < |preferred| :: preferred[j].None?
    ensures forall k: nat | FirstSegmentsAt(preferred, k) :: FirstSegments(preferred) == preferred[k]
  {
    if preferred != [] && preferred[0].None? {
      FirstSegmentsIs(preferred[1..]);
      assert forall j | 0 < j < |preferred| :: preferred[j] == preferred[1..][j - 1];
      forall k: nat | FirstSegmentsAt(preferred, k)
        ensures FirstSegments(preferred) == preferred[k]
      {
        assert FirstSegmentsAt(preferred[1..], k - 1);
      }
    }
  }

  /** The limits on values, key by key, that parameters and secrets share. */
  ghost predicate WithinLimits(p: map<Key, string>) {
    && (ZoneKey in p ==> |p[ZoneKey]| <= 63)
    && (RegionKey in p ==> |p[RegionKey]| <= 63)
    && (ResourceGroupKey in p ==> |p[ResourceGroupKey]| <= 32)
    && (EncryptedKey in p ==> p[EncryptedKey] == "true" || p[EncryptedKey] == "false")
    && (EncryptionKeyKey in p ==> |p[EncryptionKeyKey]| <= 256)
    && (ThroughputKey in p ==> p[ThroughputKey] == "" || ParseInt32(p[ThroughputKey]).Some?)
    && (forall name :: Other(name) !in p)
  }

  lemma ParametersValidExactlyWhen(p: map<Key, string>)
    ensures ValidParameters(p) <==>
              && WithinLimits(p)
              && (ProfileKey in p ==>
                    || p[ProfileKey] == "custom" || p[ProfileKey] == "general-purpose" || p[ProfileKey] == "5iops-tier"
                    || p[ProfileKey] == "10iops-tier" || p[ProfileKey] == "sdp")
  {
    if ProfileKey in p {
      assert p[ProfileKey] in SUPPORTED_PROFILES <==>
             exists k | 0 <= k < |SUPPORTED_PROFILES| :: SUPPORTED_PROFILES[k] == p[ProfileKey];
      assert SUPPORTED_PROFILES[0] == "custom" && SUPPORTED_PROFILES[1] == "general-purpose";
      assert SUPPORTED_PROFILES[2] == "5iops-tier" && SUPPORTED_PROFILES[3] == "10iops-tier";
      assert SUPPORTED_PROFILES[4] == "sdp";
    }
    if WithinLimits(p) {
      assert forall k | k in p && k != ProfileKey :: ValidParameter(k, p[k]);
    }
    if ValidParameters(p) {
      assert forall name :: Other(name) in p ==> ValidParameter(Other(name), p[Other(name)]);
    }
  }

  lemma SecretsValidExactlyWhen(s: map<Key, string>)
    ensures ValidSecrets(s) <==>
              && WithinLimits(s)
              && ProfileKey !in s && BillingTypeKey !in s && ClassVersionKey !in s && GenerationKey !in s
  {
    if ValidSecrets(s) {
      assert forall k | k in s :: ValidSecret(k, s[k]);
      assert forall name :: Other(name) in s ==> ValidSecret(Other(name), s[Other(name)]);
    }
  }

  /** The zone asked for, before any topology. */
  function AskedZone(req: CreateRequest): string {
    if ZoneKey in req.secrets then req.secrets[ZoneKey]
    else if ZoneKey in req.parameters then req.parameters[ZoneKey]
    else ""
  }

  /** A request is accepted exactly when its parameters and secrets are valid, there is a
      profile, the limit fits, there are capabilities, the first file system asked for is
      one of four or left open, and there is a zone or a topology. */
  lemma AcceptedExactlyWhen(req: CreateRequest)
    ensures Accepts(req) <==>
              && ValidParameters(req.parameters) && ValidSecrets(req.secrets) && ProfileKey in req.parameters
              && (req.range.Some? && req.range.value.limit > 0 ==>
                    req.range.value.limit >= req.range.value.required && req.range.value.limit >= 10 * GIB)
              && req.capabilities != []
              && (forall k: nat | FirstMountAt(req.capabilities, k) ::
                    KnownFsType(req.capabilities[k].access.fsType))
              && (AllSpace(AskedZone(req)) ==> exists k | 0 <= k < |req.preferred| :: req.preferred[k].Some?)
  {
    if ProfileKey in req.parameters {
      CapacityAcceptance(req.range, req.parameters[ProfileKey]);
    }
    FirstFsTypeIs(req.capabilities);
    FirstMountExists(req.capabilities);
    FirstSegmentsIs(req.preferred);
    BlankExactlyWhen(AskedZone(req));
    if FirstFsType(req.capabilities).Some? {
      KnownFsTypeExactly(FirstFsType(req.capabilities).value);
    }
  }

  predicate KnownFsType(fsType: string) {
    fsType == "" || fsType == "ext2" || fsType == "ext3" || fsType == "ext4" || fsType == "xfs"
  }

  lemma KnownFsTypeExactly(fsType: string)
    ensures KnownFsType(fsType) <==> fsType == "" || fsType in SUPPORTED_FS
  {
    assert SUPPORTED_FS[0] == "ext2" && SUPPORTED_FS[1] == "ext3" && SUPPORTED_FS[2] == "ext4";
    assert SUPPORTED_FS[3] == "xfs";
  }

  lemma {:induction false} FirstMountExists(caps: seq<VolumeCapability>)
    ensures FirstFsType(caps).Some? ==> exists k: nat :: FirstMountAt(caps, k)
  {
    if caps != [] {
      if caps[0].access.MountFs? {
        assert FirstMountAt(caps, 0);
      } else {
        FirstMountExists(caps[1..]);
        if k: nat :| FirstMountAt(caps[1..], k) {
          assert forall j | 0 < j < |caps| :: caps[j] == caps[1..][j - 1];
          assert FirstMountAt(caps, k + 1);
        }
      }
    }
  }

  /** Where a volume goes: the zone asked for, unless it is blank; then that of the first
      preferred topology with segments, if it names one. */
  lemma ZoneIs(req: CreateRequest, configuredGroup: string)
    requires Accepts(req)
    ensures !AllSpace(AskedZone(req)) ==> Resolve(req, configuredGroup).az == AskedZone(req)
    ensures forall k: nat | AllSpace(AskedZone(req)) && FirstSegmentsAt(req.preferred, k) ::
              Resolve(req, configuredGroup).az
              == var segments, key := req.preferred[k].value, "failure-domain.beta.kubernetes.io/zone";
                 if key in segments then segments[key] else ""
  {
    BlankExactlyWhen(AskedZone(req));
    FirstSegmentsIs(req.preferred);
  }

  /** The file system of a volume: that of the first capability that asks for one. */
  lemma FileSystemIs(req: CreateRequest, configuredGroup: string)
    requires Accepts(req)
    ensures forall k: nat | FirstMountAt(req.capabilities, k) ::
              Resolve(req, configuredGroup).volumeType
              == if req.capabilities[k].access.fsType == "" then "ext4" else req.capabilities[k].access.fsType
    ensures (forall j | 0 <= j < |req.capabilities| :: !req.capabilities[j].access.MountFs?) ==>
              Resolve(req, configuredGroup).volumeType == ""
  {
    FirstFsTypeIs(req.capabilities);
  }

  /** IOPS reach the provider for custom and sdp profiles only. */
  lemma IopsOnlyWhereTaken(req: CreateRequest, configuredGroup: string)
    requires Accepts(req)
    ensures var profile, v := req.parameters[ProfileKey], Resolve(req, configuredGroup);
            v.iops == if profile == "custom" || profile == "sdp" then Settle(req, configuredGroup).iops else None
  {
  }

  /** The label the response carries when the provider echoes the tags. */
  function TagLabel(tags: seq<string>): string {
    Join(tags, ',')
  }

  lemma TagRoundTrip(req: CreateRequest, configuredGroup: string)
    requires Accepts(req)
    ensures var joined := TagLabel(Resolve(req, configuredGroup).tags);
            var fromClass, fromSecret := NonEmpty(req.parameters, TagsKey), NonEmpty(req.secrets, TagsKey);
            && (fromClass.Some? && fromSecret.Some? ==>
                  joined == TrimSpace(fromClass.value) + "," + TrimSpace(fromSecret.value))
            && (fromClass.Some? && fromSecret.None? ==> joined == TrimSpace(fromClass.value))
            && (fromClass.None? && fromSecret.Some? ==> joined == TrimSpace(fromSecret.value))
            && (fromClass.None? && fromSecret.None? ==> joined == "")
  {
    var a, b := TagsIn(req.parameters), TagsIn(req.secrets);
    if a != [] {
      JoinUndoesSplit(TrimSpace(req.parameters[TagsKey]), ',');
      assert a + [] == a;
    }
    if b != [] {
      JoinUndoesSplit(TrimSpace(req.secrets[TagsKey]), ',');
      assert [] + b == b;
    }
    if a != [] && b != [] {
      JoinAppend(a, b, ',');
    }
  }
}
