/** What each controller request on volumes and snapshots answers, and what it leaves, by the
    fields of the request, the account and the faults it meets. */
module ControllerAnswers {
  import opened Common
  import opened Provider
  import opened Capacity
  import opened Inventory
  import opened VolumeParameters
  import opened SnapshotHandle
  import opened Controller
  import opened ControllerRuns
  import opened VolumeLifecycle
  import Cloud

  // ---- CreateVolume ---------------------------------------------------------------------

  /** A named request with capabilities, all of the one mode, and parameters that are accepted. */
  predicate WellAsked(req: CreateRequest) {
    && req.name != "" && req.capabilities != []
    && (forall c | c in req.capabilities :: c.mode == SingleNodeWriter)
    && Accepts(req)
  }

  lemma OneMode(caps: seq<VolumeCapability>)
    ensures AllSupported(caps, DRIVER_MODES) <==> forall c | c in caps :: c.mode == SingleNodeWriter
  {
    assert DRIVER_MODES[0] == SingleNodeWriter;
    assert forall mode :: mode in DRIVER_MODES <==> mode == SingleNodeWriter;
  }

  /** A request goes on to the provider exactly if it is well asked, there is a session, and
      it has no content source or a snapshot for one. */
  lemma CreateServedExactlyWhen(req: CreateRequest, source: ContentSource, session: Session)
    ensures CreateObjection(req, source, session).None?
            <==> WellAsked(req) && session == Opened && (source.NoSource? || source.FromSnapshot?)
  {
    OneMode(req.capabilities);
  }

  /** The first thing that is wrong decides what it is refused with; nothing changes. */
  lemma CreateRefusals(a: Account, cfg: Config, req: CreateRequest, source: ContentSource, env: Env)
    ensures var created := Created(a, cfg, req, source, env);
            && (req.name == "" ==> created == Reply(a, Err(MissingVolumeName)))
            && (req.name != "" && req.capabilities == [] ==> created == Reply(a, Err(NoVolumeCapabilities)))
            && (req.name != "" && (exists c :: c in req.capabilities && c.mode != SingleNodeWriter) ==>
                  created == Reply(a, Err(VolumeCapabilitiesNotSupported)))
            && (req.name != "" && req.capabilities != []
                && (forall c | c in req.capabilities :: c.mode == SingleNodeWriter) && !Accepts(req) ==>
                  created == Reply(a, Err(InvalidParameters)))
            && (WellAsked(req) && env.session == Unreachable ==> created == Reply(a, Err(EndpointNotReachable)))
            && (WellAsked(req) && env.session == TimedOut ==> created == Reply(a, Err(Timeout)))
            && (WellAsked(req) && env.session == Denied ==> created == Reply(a, Err(InternalError)))
            && (WellAsked(req) && env.session == Opened && source.FromVolume? ==>
                  created == Reply(a, Err(UnsupportedVolumeContentSource)))
            && (WellAsked(req) && env.session == Opened && source.NilSnapshot? ==>
                  created == Reply(a, Err(VolumeInvalidArguments)))
  {
    OneMode(req.capabilities);
  }

  /** The provider can make a volume or a snapshot of this name under what it issues. */
  ghost predicate CanMake<T(!new)>(entries: seq<Entry<T>>, name: string, id: string, rejectsDuplicates: bool) {
    id != "" && !HasId(entries, id) && (rejectsDuplicates ==> forall e | e in entries :: e.name != name)
  }

  lemma CanMakeIsIssuable<T(!new)>(entries: seq<Entry<T>>, e: Entry<T>, rejectsDuplicates: bool)
    ensures CanMake(entries, e.name, e.id, rejectsDuplicates) <==> Cloud.Issuable(entries, e, rejectsDuplicates)
  {
    var at, named := ById(entries, e.id), ByName(entries, e.name);
    if at.Some? {
      assert HasId(entries, e.id);
    }
    if named.Some? {
      assert entries[named.value] in entries;
    }
  }

  /** A name is looked for in vain: there is no such entry, or the lookup fails. */
  ghost predicate NotFound<T(!new)>(entries: seq<Entry<T>>, name: string, lookup: Cloud.Lookup) {
    lookup.Misreports? || forall e | e in entries :: e.name != name
  }

  /** What the provider's create call answers decides what the driver answers for a name that
      was not found: it succeeds exactly if the call goes well and the volume can be made. */
  lemma NewVolumeAnswers(a: Account, cfg: Config, req: CreateRequest, source: ContentSource, env: Env)
    requires WellAsked(req) && env.session == Opened && (source.NoSource? || source.FromSnapshot?)
    requires NotFound(a.volumes, req.name, env.lookup)
    ensures var created := Created(a, cfg, req, source, env);
            && (created.result.Ok? <==>
                  env.act.Fine? && CanMake(a.volumes, req.name, env.issued.id, a.rejectsDuplicates))
            && (created.result.Err? ==>
                  created.result.error == if env.act == Fails(RetrivalFailed) || env.act == FailsAfter(RetrivalFailed)
                                          then ObjectNotFound else BackendError)
            && created.account.creates == a.creates + 1 && created.account.deletes == a.deletes
            && |created.account.volumes| ==
                 |a.volumes| + if !env.act.Fails? && CanMake(a.volumes, req.name, env.issued.id, a.rejectsDuplicates)
                               then 1 else 0
  {
    CreateServedExactlyWhen(req, source, env.session);
    var spec := Resolve(req, cfg.resourceGroup);
    var v := NewVolume(spec, source, env.issued, cfg);
    CanMakeIsIssuable(a.volumes, v, a.rejectsDuplicates);
    NameNotFound(a, req.name, env.lookup);
    MadeAnswers(a, spec, source, cfg, env);
  }

  lemma NameNotFound(a: Account, name: string, lookup: Cloud.Lookup)
    requires name != "" && NotFound(a.volumes, name, lookup)
    ensures var found := CheckIfVolumeExists(a, Some(name), "", lookup); found.Ok? ==> found.value.None?
  {
    var at := ByName(a.volumes, name);
    if at.Some? {
      assert a.volumes[at.value] in a.volumes;
    }
  }

  lemma MadeAnswers(a: Account, spec: VolumeSpec, source: ContentSource, cfg: Config, env: Env)
    requires spec.capacity.Some?
    ensures var made := MadeAnswer(a, spec, source, cfg, env);
            var can := Cloud.Issuable(a.volumes, NewVolume(spec, source, env.issued, cfg), a.rejectsDuplicates);
            && (made.result.Ok? <==> env.act.Fine? && can)
            && (made.result.Err? ==>
                  made.result.error == if env.act == Fails(RetrivalFailed) || env.act == FailsAfter(RetrivalFailed)
                                       then ObjectNotFound else BackendError)
            && made.account.creates == a.creates + 1 && made.account.deletes == a.deletes
            && |made.account.volumes| == |a.volumes| + if !env.act.Fails? && can then 1 else 0
  {
  }

  // ---- The content source -----------------------------------------------------------------

  predicate BlankTo(text: string, i: nat)
    requires i <= |text|
  {
    forall j | 0 <= j < i :: text[j] == ' '
  }

  /** The text begins with this word, give or take blanks before each of its letters. */
  ghost predicate SpacedOut(word: string, text: string)
    decreases |word|, 1
  {
    word == "" || exists i :: StartsAt(word, text, i)
  }

  ghost predicate StartsAt(word: string, text: string, i: int)
    requires word != ""
    decreases |word|, 0
  {
    0 <= i < |text| && BlankTo(text, i) && text[i] == word[0] && SpacedOut(word[1..], text[i + 1..])
  }

  lemma {:induction false} SpacedOutExactly(word: string, text: string)
    requires ' ' !in word
    ensures word <= WithoutSpaces(text) <==> SpacedOut(word, text)
    decreases |text|
  {
    if word != "" && text != "" {
      var rest := text[1..];
      if text[0] == ' ' {
        SpacedOutExactly(word, rest);
        BlankAhead(word, text);
      } else {
        SpacedOutExactly(word[1..], rest);
        LetterAhead(word, text);
        var bare := WithoutSpaces(text);
        assert bare == [text[0]] + WithoutSpaces(rest);
        assert word == [word[0]] + word[1..];
        assert word <= bare <==> word[0] == text[0] && word[1..] <= WithoutSpaces(rest);
      }
    }
  }

  lemma BlankAhead(word: string, text: string)
    requires word != "" && word[0] != ' ' && text != "" && text[0] == ' '
    ensures SpacedOut(word, text) <==> SpacedOut(word, text[1..])
  {
    forall i | 0 < i < |text|
      ensures StartsAt(word, text, i) <==> StartsAt(word, text[1..], i - 1)
    {
      StartsLater(word, text, i);
    }
    if i :| StartsAt(word, text[1..], i) {
      assert StartsAt(word, text, i + 1);
    }
  }

  lemma StartsLater(word: string, text: string, i: int)
    requires word != "" && 0 < i < |text| && text[0] == ' '
    ensures StartsAt(word, text, i) <==> StartsAt(word, text[1..], i - 1)
  {
    var rest := text[1..];
    assert forall j | 0 < j < i :: text[j] == rest[j - 1];
    assert BlankTo(text, i) <==> BlankTo(rest, i - 1) by {
      assert forall j | 0 <= j < i - 1 :: rest[j] == text[j + 1];
    }
    assert rest[i..] == text[i + 1..];
  }

  lemma LetterAhead(word: string, text: string)
    requires word != "" && text != "" && text[0] != ' '
    ensures SpacedOut(word, text) <==> text[0] == word[0] && SpacedOut(word[1..], text[1..])
  {
    assert StartsAt(word, text, 0) <==> text[0] == word[0] && SpacedOut(word[1..], text[1..]);
  }

  /** A volume made from a snapshot records it: as the provider names it if the source reads
      "crn:" with any blanks before its letters, and as given otherwise. */
  lemma SourceIsRecorded(a: Account, cfg: Config, req: CreateRequest, source: ContentSource, env: Env)
      returns (v: Cloud.VolumeEntry)
    requires WellAsked(req) && env.session == Opened && source.FromSnapshot?
    requires NotFound(a.volumes, req.name, env.lookup)
    requires env.act.Fine? && CanMake(a.volumes, req.name, env.issued.id, a.rejectsDuplicates)
    ensures Created(a, cfg, req, source, env).account.volumes == a.volumes + [v]
    ensures v.body.snapshotID == if SpacedOut("crn:", source.id) then env.issued.sourceID else source.id
    ensures var result := Created(a, cfg, req, source, env).result;
            result.Ok? && result.value.source == if v.body.snapshotID == "" then None else Some(v.body.snapshotID)
  {
    CreateServedExactlyWhen(req, source, env.session);
    NewVolumeAnswers(a, cfg, req, source, env);
    SpacedOutExactly("crn:", source.id);
    v := NewVolume(Resolve(req, cfg.resourceGroup), source, env.issued, cfg);
    CanMakeIsIssuable(a.volumes, v, a.rejectsDuplicates);
    CreateEffect(a, cfg, req, source, env);
  }

  // ---- DeleteVolume -----------------------------------------------------------------------

  /** The lookup by id says that the volume is not there. */
  ghost predicate SaidToBeGone(a: Account, id: string, lookup: Cloud.Lookup) {
    match lookup
    case Accurate => !HasId(a.volumes, id)
    case Misreports(kind) => kind == EntityNotFound || kind == RetrivalFailed
  }

  /** A delete that has an id and a session reaches the provider exactly if the lookup does
      not say that the volume is gone, and then succeeds exactly if it is there and the call
      goes well; told that it is gone, it succeeds at once. */
  lemma DeleteAnswers(a: Account, id: string, env: Env)
    ensures id == "" ==> Deleted(a, id, env) == Reply(a, Err(EmptyVolumeID))
    ensures id != "" && env.session != Opened ==> Deleted(a, id, env) == Reply(a, Err(FailedPrecondition))
    ensures id != "" && env.session == Opened && SaidToBeGone(a, id, env.lookup) ==>
              Deleted(a, id, env) == Reply(a, Ok(()))
    ensures id != "" && env.session == Opened && !SaidToBeGone(a, id, env.lookup) ==>
              && Deleted(a, id, env).result
                 == (if env.act.Fine? && HasId(a.volumes, id) then Ok(()) else Err(BackendError))
              && Deleted(a, id, env).account.deletes == a.deletes + 1
              && Deleted(a, id, env).account.creates == a.creates
              && Deleted(a, id, env).account.snapshots == a.snapshots
  {
    var at := ById(a.volumes, id);
    if at.Some? {
      assert a.volumes[at.value] in a.volumes;
    }
  }

  /** Whatever it answers, it removes the volume exactly if it reaches the provider and the
      call takes effect, and nothing else. */
  lemma DeleteRemoves(a: Account, id: string, env: Env)
    requires WellFormed(a) && HasId(a.volumes, id)
    ensures HasId(Deleted(a, id, env).account.volumes, id)
            <==> id == "" || env.session != Opened || SaidToBeGone(a, id, env.lookup) || env.act.Fails?
    ensures SameBut(a.volumes, Deleted(a, id, env).account.volumes, id)
  {
    var at := ById(a.volumes, id);
    assert at.Some?;
    RemovingKeeps(a.volumes, at.value);
  }

  // ---- ControllerExpandVolume ---------------------------------------------------------------

  /** What an expansion answers before the provider is asked for one; nothing changes. */
  lemma ExpandRefusals(a: Account, id: string, bytes: int64, env: Env)
    ensures id == "" ==> Expanded(a, id, bytes, env) == Reply(a, Err(EmptyVolumeID))
    ensures id != "" && env.session != Opened ==> Expanded(a, id, bytes, env) == Reply(a, Err(FailedPrecondition))
    ensures id != "" && env.session == Opened && SaidToBeGone(a, id, env.lookup) ==>
              Expanded(a, id, bytes, env) == Reply(a, Err(ObjectNotFound))
    ensures id != "" && env.session == Opened && env.lookup.Misreports? && !SaidToBeGone(a, id, env.lookup) ==>
              Expanded(a, id, bytes, env) == Reply(a, Err(InternalError))
  {
    var at := ById(a.volumes, id);
    if at.Some? {
      assert a.volumes[at.value] in a.volumes;
    }
  }

  /** The provider grants this size: none is known, or it is not above the size there once
      rounded up; and a size that is enough already, bytes compared with GiB, is left alone. */
  predicate Grants(v: Cloud.VolumeEntry, bytes: int64) {
    match v.body.capacity
    case None => true
    case Some(gib) => gib >= bytes || (bytes <= LARGEST_EXACT && (gib - 1) * GIB < bytes)
  }

  /** A volume that is there is expanded exactly if the call goes well and the provider
      grants the size; a call that takes effect does so whatever it reports. */
  lemma ExpandAnswers(a: Account, id: string, bytes: int64, env: Env, v: Cloud.VolumeEntry)
    requires WellFormed(a) && v in a.volumes && v.id == id
    requires v.body.capacity.Some? ==> v.body.capacity.value >= 0
    requires id != "" && env.session == Opened && env.lookup.Accurate?
    ensures Expanded(a, id, bytes, env).result
            == if env.act.Fine? && Grants(v, bytes) then Ok(bytes) else Err(BackendError)
    ensures env.act.Fails? || !Grants(v, bytes) || (v.body.capacity.Some? && v.body.capacity.value >= bytes) ==>
              Expanded(a, id, bytes, env).account == a
    ensures env.act.FailsAfter? ==>
              Expanded(a, id, bytes, env).account == Expanded(a, id, bytes, env.(act := Fine)).account
  {
    IdFindsIt(a.volumes, v);
    GrantIsCeiling(bytes);
    if v.body.capacity.Some? {
      AtLeastRounded(v.body.capacity.value, bytes);
    }
  }

  /** Comparing a number of GiB with a number of bytes rounded up. */
  lemma AtLeastRounded(gib: nat, bytes: int64)
    ensures gib <= TruncatedDiv(Wrap64(bytes + GIB - 1), GIB) || gib >= bytes
            <==> gib >= bytes || (bytes <= LARGEST_EXACT && (gib - 1) * GIB < bytes)
  {
    GrantIsCeiling(bytes);
  }

  // ---- Snapshots -----------------------------------------------------------------------------

  lemma SnapshotRefusals(a: Account, name: string, volumeID: string, env: Env)
    ensures SnapshotObjection(name, volumeID, env.session).None?
            <==> name != "" && volumeID != "" && env.session == Opened
    ensures var created := SnapshotCreated(a, name, volumeID, env);
            && (name == "" ==> created == Reply(a, Err(MissingSnapshotName)))
            && (name != "" && volumeID == "" ==> created == Reply(a, Err(MissingSourceVolumeID)))
            && (name != "" && volumeID != "" ==>
                  && (env.session == Unreachable ==> created == Reply(a, Err(EndpointNotReachable)))
                  && (env.session == TimedOut ==> created == Reply(a, Err(Timeout)))
                  && (env.session == Denied ==> created == Reply(a, Err(InternalError))))
  {
  }

  /** A snapshot whose name is not found is made, and answered for, exactly if the call goes
      well and it can be made; whatever else happens is an internal error. */
  lemma NewSnapshotAnswers(a: Account, name: string, volumeID: string, env: Env)
    requires name != "" && volumeID != "" && env.session == Opened && NotFound(a.snapshots, name, env.lookup)
    ensures var can := CanMake(a.snapshots, name, env.issued.id, a.rejectsDuplicates);
            && SnapshotCreated(a, name, volumeID, env).result
               == (if env.act.Fine? && can
                   then Ok(SnapshotResponse(env.issued.crn, volumeID, env.issued.size, env.issued.ready))
                   else Err(InternalError))
            && SnapshotCreated(a, name, volumeID, env).account.snapshots
               == (if !env.act.Fails? && can
                   then a.snapshots + [Entry(env.issued.id, name, Cloud.SnapshotBody(
                                         volumeID, env.issued.crn, env.issued.size, env.issued.ready))]
                   else a.snapshots)
            && SnapshotCreated(a, name, volumeID, env).account.creates == a.creates + 1
  {
    var at := ByName(a.snapshots, name);
    if at.Some? {
      assert a.snapshots[at.value] in a.snapshots;
    }
    CanMakeIsIssuable(a.snapshots, NewSnapshot(name, volumeID, env.issued), a.rejectsDuplicates);
  }

  /** A snapshot that is found is answered for exactly if it is of the volume named. */
  lemma ExistingSnapshotAnswers(a: Account, name: string, volumeID: string, env: Env, s: Cloud.SnapshotEntry)
    requires name != "" && volumeID != "" && env.session == Opened && env.lookup.Accurate?
    requires UniqueNames(a.snapshots) && s in a.snapshots && s.name == name
    ensures SnapshotCreated(a, name, volumeID, env)
            == Reply(a, if s.body.volumeID == volumeID
                        then Ok(SnapshotResponse(s.body.crn, s.body.volumeID, s.body.size, s.body.ready))
                        else Err(SnapshotAlreadyExists))
  {
    NameFindsIt(a.snapshots, s);
  }

  /** What deleting a snapshot answers; it reaches the provider exactly if there is a handle
      and a session, and succeeds exactly if the call goes well or says "not found". */
  lemma SnapshotDeleteAnswers(a: Account, handle: string, env: Env)
    ensures handle == "" ==> SnapshotDeleted(a, handle, env) == Reply(a, Err(EmptySnapshotID))
    ensures handle != "" ==>
              && (env.session == Unreachable ==>
                    SnapshotDeleted(a, handle, env) == Reply(a, Err(EndpointNotReachable)))
              && (env.session == TimedOut ==> SnapshotDeleted(a, handle, env) == Reply(a, Err(Timeout)))
              && (env.session == Denied ==> SnapshotDeleted(a, handle, env) == Reply(a, Err(InternalError)))
    ensures handle != "" && env.session == Opened ==>
              && SnapshotDeleted(a, handle, env).result
                 == (if env.act.Fine? || env.act == Fails(RetrivalFailed) || env.act == FailsAfter(RetrivalFailed)
                     then Ok(()) else Err(BackendError))
              && SnapshotDeleted(a, handle, env).account.deletes == a.deletes + 1
              && SnapshotDeleted(a, handle, env).account.volumes == a.volumes
  {
  }

  /** Whatever it answers, it removes the snapshot its handle names exactly if the call takes
      effect, and nothing else. */
  lemma SnapshotDeleteRemoves(a: Account, handle: string, env: Env)
    requires WellFormed(a) && HasId(a.snapshots, ParseHandle(handle).snapshotID)
    requires handle != "" && env.session == Opened
    ensures var id, after := ParseHandle(handle).snapshotID, SnapshotDeleted(a, handle, env).account.snapshots;
            (HasId(after, id) <==> env.act.Fails?) && SameBut(a.snapshots, after, id)
  {
    var at := ById(a.snapshots, ParseHandle(handle).snapshotID);
    assert at.Some?;
    RemovingKeeps(a.snapshots, at.value);
  }
}
