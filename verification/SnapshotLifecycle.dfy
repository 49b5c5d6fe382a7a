/** Creating and deleting snapshots: repeated requests, and the handle that a create
    returns and a delete is given. */
module SnapshotLifecycle {
  import opened Common
  import opened Provider
  import opened Text
  import opened Inventory
  import opened SnapshotHandle
  import opened Controller
  import opened ControllerRuns
  import Cloud

  // ---- CreateSnapshot -------------------------------------------------------------------

  predicate MakesSnapshot(a: Account, name: string, volumeID: string, env: Env) {
    && SnapshotObjection(name, volumeID, env.session).None?
    && (env.lookup.Misreports? || ByName(a.snapshots, name).None?)
    && !env.act.Fails?
    && env.issued.id != "" && ById(a.snapshots, env.issued.id).None?
    && (a.rejectsDuplicates ==> ByName(a.snapshots, name).None?)
  }

  lemma SnapshotCreateEffect(a: Account, name: string, volumeID: string, env: Env)
    ensures SnapshotCreated(a, name, volumeID, env).account.snapshots
            == if MakesSnapshot(a, name, volumeID, env)
               then a.snapshots + [NewSnapshot(name, volumeID, env.issued)] else a.snapshots
  {
  }

  /** A success answers for a snapshot that is there, of that volume, under that name. */
  lemma SnapshotCreatedMeansThere(a: Account, name: string, volumeID: string, env: Env)
      returns (s: Cloud.SnapshotEntry)
    requires SnapshotCreated(a, name, volumeID, env).result.Ok?
    ensures s in SnapshotCreated(a, name, volumeID, env).account.snapshots
    ensures s.name == name && s.body.volumeID == volumeID
    ensures SnapshotCreated(a, name, volumeID, env).result.value == SnapshotAnswer(s)
  {
    var found := Cloud.GetByName(a.snapshots, name, env.lookup);
    if found.Ok? {
      s := found.value;
    } else {
      s := NewSnapshot(name, volumeID, env.issued);
      assert (a.snapshots + [s])[|a.snapshots|] == s;
    }
  }

  /** One create request makes a second snapshot of a name exactly when its lookup fails
      over a name that is there and the provider makes it all the same. */
  lemma SnapshotDuplicateExactlyWhen(a: Account, name: string, volumeID: string, env: Env)
    requires UniqueNames(a.snapshots)
    ensures !UniqueNames(SnapshotCreated(a, name, volumeID, env).account.snapshots)
            <==> (&& SnapshotObjection(name, volumeID, env.session).None?
                  && env.lookup.Misreports? && ByName(a.snapshots, name).Some? && !a.rejectsDuplicates
                  && !env.act.Fails? && env.issued.id != "" && ById(a.snapshots, env.issued.id).None?)
  {
    SnapshotCreateEffect(a, name, volumeID, env);
    if MakesSnapshot(a, name, volumeID, env) {
      AddingKeepsNames(a.snapshots, NewSnapshot(name, volumeID, env.issued));
    }
  }

  /** Idempotency. Whatever comes in between, short of deleting it, asking again for the
      same name and volume answers with the same snapshot and makes nothing; another
      source volume is refused and changes nothing. */
  lemma SnapshotCreateIsIdempotent(a: Account, cfg: Config, name: string, volumeID: string, env: Env,
                                   ops: seq<Op>, volumeID': string, env': Env)
    requires WellFormed(a) && NamesApart(a)
    requires a.rejectsDuplicates || (env.lookup.Accurate? && forall op | op in ops :: LooksTruly(op))
    requires SnapshotCreated(a, name, volumeID, env).result.Ok?
    requires forall op, s | op in ops && op.DeleteSnapshot?
                            && s in SnapshotCreated(a, name, volumeID, env).account.snapshots && s.name == name ::
               ParseHandle(op.handle).snapshotID != s.id
    requires SnapshotObjection(name, volumeID', env'.session).None? && env'.lookup.Accurate?
    ensures var first := SnapshotCreated(a, name, volumeID, env);
            var between := Run(first.account, cfg, ops);
            SnapshotCreated(between, name, volumeID', env')
            == Reply(between, if volumeID' == volumeID then first.result else Err(SnapshotAlreadyExists))
  {
    var s := SnapshotCreatedMeansThere(a, name, volumeID, env);
    var op := CreateSnapshot(name, volumeID, env);
    var first := Apply(a, cfg, op);
    ApplyIsStep(a, cfg, op);
    ApplyTouchesOneId(a, cfg, op);
    ApplyKeepsNames(a, cfg, op);
    SnapshotLasts(first, cfg, ops, s);
    RunKeepsNames(first, cfg, ops);
    NameFindsIt(Run(first, cfg, ops).snapshots, s);
  }

  // ---- Handles ------------------------------------------------------------------------------

  /** The handle is a resource name of this snapshot in this account. */
  ghost predicate WellNamed(s: Cloud.SnapshotEntry, accountID: string) {
    exists segments :: NamesSnapshot(segments, s.id, accountID) && s.body.crn == Join(segments, ':')
  }

  ghost predicate AllWellNamed(a: Account, accountID: string) {
    forall s | s in a.snapshots :: WellNamed(s, accountID)
  }

  /** The provider issues resource names that name what it creates. */
  ghost predicate IssuesWell(op: Op, accountID: string) {
    op.CreateSnapshot? ==> WellNamed(NewSnapshot(op.name, op.volumeID, op.env.issued), accountID)
  }

  lemma SnapshotOrigin(a: Account, cfg: Config, op: Op, s: Cloud.SnapshotEntry)
    requires s in Apply(a, cfg, op).snapshots
    ensures s in a.snapshots || (op.CreateSnapshot? && s == NewSnapshot(op.name, op.volumeID, op.env.issued))
  {
    ApplyIsStep(a, cfg, op);
    if op.CreateSnapshot? {
      SnapshotCreateEffect(a, op.name, op.volumeID, op.env);
    }
  }

  /** Over any run every snapshot's handle goes on naming it. */
  lemma {:induction false} RunKeepsHandles(a: Account, cfg: Config, ops: seq<Op>)
    requires WellFormed(a) && AllWellNamed(a, cfg.accountID)
    requires forall op | op in ops :: IssuesWell(op, cfg.accountID)
    ensures AllWellNamed(Run(a, cfg, ops), cfg.accountID)
    decreases |ops|
  {
    if ops != [] {
      var op, b := ops[0], Apply(a, cfg, ops[0]);
      ApplyIsStep(a, cfg, op);
      ApplyTouchesOneId(a, cfg, op);
      assert IssuesWell(op, cfg.accountID);
      forall s | s in b.snapshots
        ensures WellNamed(s, cfg.accountID)
      {
        SnapshotOrigin(a, cfg, op, s);
      }
      RunKeepsHandles(b, cfg, ops[1..]);
    }
  }

  lemma HandleNamesIt(s: Cloud.SnapshotEntry, accountID: string)
    requires WellNamed(s, accountID)
    ensures ParseHandle(s.body.crn) == Handle(s.id, accountID)
    ensures s.body.crn != ""
  {
    var segments :| NamesSnapshot(segments, s.id, accountID) && s.body.crn == Join(segments, ':');
    HandleRoundTrip(segments, s.id, accountID);
    SplitUndoesJoin(segments, ':');
    assert |Split("", ':')| == 1;
  }

  // ---- DeleteSnapshot ------------------------------------------------------------------------

  /** A successful delete changes nothing but the snapshot its handle names, which is still
      there exactly when the provider wrongly said it was not. */
  lemma SnapshotDeleteConverges(a: Account, handle: string, env: Env)
    requires WellFormed(a) && SnapshotDeleted(a, handle, env).result.Ok?
    ensures var id := ParseHandle(handle).snapshotID;
            var b := SnapshotDeleted(a, handle, env).account;
            && SameBut(a.snapshots, b.snapshots, id) && b.volumes == a.volumes
            && (HasId(b.snapshots, id) <==> HasId(a.snapshots, id) && env.act == Fails(RetrivalFailed))
  {
    var at := ById(a.snapshots, ParseHandle(handle).snapshotID);
    if at.Some? {
      RemovingKeeps(a.snapshots, at.value);
    }
  }

  const ONE_SNAPSHOT :=
    Cloud.EMPTY_ACCOUNT.(snapshots := [Entry("s1", "snapshot", Cloud.SnapshotBody("v1", "crn", 0, true))])

  function Acting(act: CallFault): Env {
    Env(Opened, Cloud.Accurate, act, Issue("", "", "", true, "", 0, true))
  }

  /** Concretely: a delete whose call wrongly reports "not found" succeeds over a snapshot
      that stays. */
  lemma MisreportedDeleteKeepsSnapshot()
    ensures var gone := SnapshotDeleted(ONE_SNAPSHOT, "s1", Acting(Fails(RetrivalFailed)));
            gone.result == Ok(()) && gone.account.snapshots == ONE_SNAPSHOT.snapshots
    ensures HasId(ONE_SNAPSHOT.snapshots, "s1")
  {
    assert ONE_SNAPSHOT.snapshots[0].id == "s1";
  }

  /** Deleting again succeeds and leaves volumes and snapshots as they are. */
  lemma RepeatedSnapshotDelete(a: Account, handle: string, env: Env)
    requires handle != "" && env.session == Opened && env.act.Fine?
    requires !HasId(a.snapshots, ParseHandle(handle).snapshotID)
    ensures SnapshotDeleted(a, handle, env) == Reply(a.(deletes := a.deletes + 1), Ok(()))
  {
    assert ById(a.snapshots, ParseHandle(handle).snapshotID).None?;
  }

  /** From create to delete: the handle a create returned, given back after any run that
      does not delete that snapshot, deletes exactly that snapshot. */
  lemma HandleDeletesWhatItNamed(a: Account, cfg: Config, name: string, volumeID: string, env: Env,
                                 ops: seq<Op>, env': Env) returns (s: Cloud.SnapshotEntry)
    requires WellFormed(a) && AllWellNamed(a, cfg.accountID)
    requires IssuesWell(CreateSnapshot(name, volumeID, env), cfg.accountID)
    requires SnapshotCreated(a, name, volumeID, env).result.Ok?
    requires forall op | op in ops && op.DeleteSnapshot? ::
               ParseHandle(op.handle).snapshotID
               != ParseHandle(SnapshotCreated(a, name, volumeID, env).result.value.handle).snapshotID
    requires env'.session == Opened && env'.act.Fine?
    ensures s.name == name && s.body.volumeID == volumeID
    ensures DeletesExactly(Run(SnapshotCreated(a, name, volumeID, env).account, cfg, ops), s,
                           SnapshotCreated(a, name, volumeID, env).result.value.handle, env')
  {
    s := SnapshotCreatedMeansThere(a, name, volumeID, env);
    var op := CreateSnapshot(name, volumeID, env);
    var first := Apply(a, cfg, op);
    assert Run(a, cfg, [op]) == Run(first, cfg, [op][1..]) == first;
    RunKeepsHandles(a, cfg, [op]);
    ApplyTouchesOneId(a, cfg, op);
    HandleNamesIt(s, cfg.accountID);
    SnapshotLasts(first, cfg, ops, s);
    HandleDeletesIt(Run(first, cfg, ops), cfg, s, env');
  }

  ghost predicate DeletesExactly(a: Account, s: Cloud.SnapshotEntry, handle: string, env: Env) {
    var gone := SnapshotDeleted(a, handle, env);
    && s in a.snapshots && gone.result.Ok?
    && !HasId(gone.account.snapshots, s.id) && SameBut(a.snapshots, gone.account.snapshots, s.id)
  }

  lemma HandleDeletesIt(a: Account, cfg: Config, s: Cloud.SnapshotEntry, env: Env)
    requires WellFormed(a) && s in a.snapshots && WellNamed(s, cfg.accountID)
    requires env.session == Opened && env.act.Fine?
    ensures DeletesExactly(a, s, s.body.crn, env)
  {
    HandleNamesIt(s, cfg.accountID);
    IdFindsIt(a.snapshots, s);
    SnapshotDeleteConverges(a, s.body.crn, env);
  }
}
