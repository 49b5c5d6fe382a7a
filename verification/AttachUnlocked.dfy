/** The same handlers with the lock disabled, as the shipped manifest configures them. */
module AttachUnlocked {
  import opened Common
  import opened Provider
  import opened Attachments
  import opened AttachProtocol
  import opened AttachSerial
  import opened AttachConflicts

  // ---- When the lock is not missed --------------------------------------------------------

  /** No turn lets a handler start while another of its instance is between its first step
      and its last. */
  ghost predicate OneAtATime(s: Sys, schedule: seq<nat>)
    decreases |schedule|
  {
    schedule != [] ==>
      && (Can(s, schedule[0]) && s.pcs[schedule[0]].Waiting? ==>
            forall j: nat | j < |s.pcs| && Busy(s.pcs[j]) :: NodeOf(s, j) != NodeOf(s, schedule[0]))
      && OneAtATime(Turn(s, schedule[0]), schedule[1..])
  }

  ghost predicate Alike(s: Sys, t: Sys) {
    && !s.lockEnabled && t.lockEnabled && s.reqs == t.reqs && s.pcs == t.pcs
    && s.instances == t.instances && s.order == t.order
  }

  lemma StepsAlike(s: Sys, t: Sys, i: nat)
    requires Alike(s, t) && Can(s, i) && Can(t, i)
    ensures Alike(Next(s, i), Next(t, i))
  {
    var v := Stepped(false, i, s.reqs[i], ViewOf(s, i));
    var w := Stepped(true, i, s.reqs[i], ViewOf(t, i));
    assert w == v.(holder := w.holder);
  }

  lemma TurnsAlike(start: Sys, s: Sys, t: Sys, i: nat)
    requires Alike(s, t) && Inv(start, t)
    requires Can(s, i) && s.pcs[i].Waiting? ==>
               forall j: nat | j < |s.pcs| && Busy(s.pcs[j]) :: NodeOf(s, j) != NodeOf(s, i)
    ensures Alike(Turn(s, i), Turn(t, i))
  {
    if Can(s, i) {
      var n := NodeOf(s, i);
      assert NodeInv(start, t, n);
      StepsAlike(s, t, i);
    }
  }

  /** Handlers that never overlap on an instance behave exactly as with the lock. */
  lemma {:induction false} OneAtATimeNeedsNoLock(start: Sys, s: Sys, t: Sys, schedule: seq<nat>)
    requires Alike(s, t) && Inv(start, t) && OneAtATime(s, schedule)
    ensures Alike(Run(s, schedule), Run(t, schedule))
    decreases |schedule|
  {
    if schedule != [] {
      var i := schedule[0];
      TurnsAlike(start, s, t, i);
      if Can(t, i) {
        StepInv(start, t, i);
      }
      OneAtATimeNeedsNoLock(start, Turn(s, i), Turn(t, i), schedule[1..]);
    }
  }

  // ---- When it is ------------------------------------------------------------------------------

  /** A request whose provider calls all go well. */
  predicate WellMet(req: Request) {
    && Objection(req).None? && req.env.session && req.env.act.Fine? && req.env.wait.Fine?
    && (req.Publish? ==> req.env.lookup.Found?)
  }

  /** One that is not refused for its capability either. */
  predicate Smooth(req: Request) {
    WellMet(req) && Supported(req)
  }

  predicate NoneDetaching(inst: Instance) {
    forall v | v in inst.attachments :: inst.attachments[v].status != Detaching
  }

  /** Run whole, such handlers leave nothing half detached, and the smooth ones succeed. */
  lemma WellMetWhole(inst: Instance, req: Request)
    requires WellMet(req) && NoneDetaching(inst)
    ensures NoneDetaching(HandledWhole(inst, req).instance)
    ensures req.Publish? && Smooth(req) ==> HandledWhole(inst, req).response.Published?
    ensures req.Unpublish? ==> HandledWhole(inst, req).response == Unpublished
  {
  }

  lemma {:induction false} WellMetSerial(base: Instance, reqs: seq<Request>, order: seq<nat>, n: string)
    requires ValidOrder(reqs, order, n) && NoneDetaching(base)
    requires forall k | 0 <= k < |order| :: WellMet(reqs[order[k]])
    ensures NoneDetaching(Serial(base, reqs, order, n))
  {
    if order != [] {
      var front := order[..|order| - 1];
      WellMetSerial(base, reqs, front, n);
      WellMetWhole(Serial(base, reqs, front, n), reqs[order[|order| - 1]]);
    }
  }

  // ---- Two rivals side by side ---------------------------------------------------------------------

  /** Where a schedule has brought handlers i and j; nobody else has moved. */
  ghost predicate Reaches(start: Sys, schedule: seq<nat>, i: nat, j: nat, a: Pc, b: Pc, inst: Instance)
    requires i < |start.reqs| && j < |start.reqs|
  {
    var s := Run(start, schedule);
    && !s.lockEnabled && s.reqs == start.reqs && |s.pcs| == |s.reqs|
    && s.pcs[i] == a && s.pcs[j] == b
    && (forall k | 0 <= k < |s.pcs| && k != i && k != j :: s.pcs[k] == Idle)
    && InstanceAt(s, start.reqs[i].nodeID) == inst
  }

  /** One step of a handler, looking only at itself and its instance. */
  function Solo(req: Request, pc: Pc, inst: Instance): Moved
    requires !pc.Done? && Objection(req).None?
  {
    var v := Stepped(false, 0, req, View(pc, inst, [], None));
    Moved(v.instance, v.pc)
  }

  lemma ExtendRun(start: Sys, schedule: seq<nat>, i: nat)
    ensures Run(start, schedule + [i]) == Turn(Run(start, schedule), i)
  {
    RunAppend(start, schedule, [i]);
    assert [i][1..] == [];
  }

  lemma Moves(start: Sys, schedule: seq<nat>, i: nat, j: nat, a: Pc, b: Pc, inst: Instance)
      returns (more: seq<nat>)
    requires i < |start.reqs| && j < |start.reqs| && i != j && start.reqs[i].nodeID == start.reqs[j].nodeID
    requires Objection(start.reqs[i]).None? && !a.Done? && Reaches(start, schedule, i, j, a, b, inst)
    ensures Reaches(start, more, i, j, Solo(start.reqs[i], a, inst).pc, b, Solo(start.reqs[i], a, inst).instance)
    ensures Reaches(start, more, j, i, b, Solo(start.reqs[i], a, inst).pc, Solo(start.reqs[i], a, inst).instance)
  {
    more := schedule + [i];
    ExtendRun(start, schedule, i);
    var s := Run(start, schedule);
    assert Can(s, i);
    NextFrame(s, i);
    assert ViewOf(s, i).(order := [], holder := None) == View(a, inst, [], None);
  }

  predicate BeforeCall(req: Request, pc: Pc) {
    pc.Idle? || pc.Waiting? || pc.GettingSession? || (req.Publish? && (pc.CheckingCapability? || pc.LookingUp?))
  }

  lemma SmoothStep(req: Request, pc: Pc, inst: Instance)
    requires Smooth(req) && BeforeCall(req, pc)
    ensures var moved := Solo(req, pc, inst);
            && moved.instance == inst && Rank(moved.pc) < Rank(pc)
            && (BeforeCall(req, moved.pc) || moved.pc.Acting?)
  {
  }

  /** A smooth handler reaches its attach or detach call without touching the instance. */
  lemma {:induction false} UpToCall(start: Sys, before: seq<nat>, i: nat, j: nat, a: Pc, b: Pc, inst: Instance)
      returns (schedule: seq<nat>)
    requires i < |start.reqs| && j < |start.reqs| && i != j && start.reqs[i].nodeID == start.reqs[j].nodeID
    requires Smooth(start.reqs[i]) && (BeforeCall(start.reqs[i], a) || a.Acting?)
    requires Reaches(start, before, i, j, a, b, inst)
    ensures Reaches(start, schedule, i, j, Acting, b, inst)
    decreases Rank(a)
  {
    if a.Acting? {
      schedule := before;
    } else {
      SmoothStep(start.reqs[i], a, inst);
      schedule := Moves(start, before, i, j, a, b, inst);
      schedule := UpToCall(start, schedule, i, j, Solo(start.reqs[i], a, inst).pc, b, inst);
    }
  }

  function AttachCall(inst: Instance, req: Request): Effect<Attachment> {
    AttachVolume(inst, req.volumeID, req.env.devicePath, req.env.act)
  }

  /** The two calls in turn: the volume is being detached while the publish waits for it. */
  lemma CallsInTurn(inst: Instance, p: Request, u: Request)
    requires Rivals(p, u) && Smooth(p) && Smooth(u)
    requires p.volumeID in inst.attachments ==> inst.attachments[p.volumeID].status != Detaching
    ensures var attached := AttachCall(inst, p);
            && attached.result.Ok?
            && Solo(p, Acting, inst) == Moved(attached.instance, WaitingFor(attached.result.value.id))
            && (var detached := DetachVolume(attached.instance, u.volumeID, u.env.act).instance;
                && Solo(u, Acting, attached.instance) == Moved(detached, WaitingFor(0))
                && Solo(p, WaitingFor(attached.result.value.id), detached)
                   == Moved(detached, Releasing(Refused(BackendError)))
                && Solo(u, WaitingFor(0), detached).pc == Releasing(Unpublished))
  {
  }

  /** Without the lock, smooth rivals can be at work at once, and then the publish fails and
      the unpublish succeeds, with nobody else involved. */
  lemma RivalsCollide(start: Sys, i: nat, j: nat) returns (busy: seq<nat>, schedule: seq<nat>)
    requires Initial(start) && !start.lockEnabled && i < |start.reqs| && j < |start.reqs|
    requires Rivals(start.reqs[i], start.reqs[j]) && Smooth(start.reqs[i]) && Smooth(start.reqs[j])
    requires var p, att := start.reqs[i], InstanceAt(start, start.reqs[i].nodeID).attachments;
             p.volumeID in att ==> att[p.volumeID].status != Detaching
    ensures i < |Run(start, busy).pcs| && j < |Run(start, busy).pcs|
    ensures Busy(Run(start, busy).pcs[i]) && Busy(Run(start, busy).pcs[j])
    ensures |Run(start, schedule).pcs| == |start.reqs| && Run(start, schedule).reqs == start.reqs
    ensures Run(start, schedule).pcs[i] == Done(Refused(BackendError))
    ensures Run(start, schedule).pcs[j] == Done(Unpublished)
    ensures forall k | 0 <= k < |start.reqs| && k != i && k != j :: Run(start, schedule).pcs[k] == Idle
  {
    var p, u, inst := start.reqs[i], start.reqs[j], InstanceAt(start, start.reqs[i].nodeID);
    CallsInTurn(inst, p, u);
    var attached := AttachCall(inst, p);
    var id, detached := attached.result.value.id, DetachVolume(attached.instance, u.volumeID, u.env.act).instance;
    assert Reaches(start, [], i, j, Idle, Idle, inst);
    schedule := UpToCall(start, [], i, j, Idle, Idle, inst);
    schedule := Moves(start, schedule, i, j, Acting, Idle, inst);
    schedule := UpToCall(start, schedule, j, i, Idle, WaitingFor(id), attached.instance);
    busy := Moves(start, schedule, j, i, Acting, WaitingFor(id), attached.instance);
    schedule := RivalsFinish(start, busy, i, j, id, detached);
  }

  lemma RivalsFinish(start: Sys, busy: seq<nat>, i: nat, j: nat, id: nat, inst: Instance) returns (schedule: seq<nat>)
    requires i < |start.reqs| && j < |start.reqs| && i != j && Rivals(start.reqs[i], start.reqs[j])
    requires Reaches(start, busy, i, j, WaitingFor(id), WaitingFor(0), inst)
    requires Solo(start.reqs[i], WaitingFor(id), inst) == Moved(inst, Releasing(Refused(BackendError)))
    requires Solo(start.reqs[j], WaitingFor(0), inst).pc == Releasing(Unpublished)
    ensures Reaches(start, schedule, j, i, Done(Unpublished), Done(Refused(BackendError)),
                    Solo(start.reqs[j], WaitingFor(0), inst).instance)
  {
    var refused, left := Refused(BackendError), Solo(start.reqs[j], WaitingFor(0), inst).instance;
    schedule := Moves(start, busy, i, j, WaitingFor(id), WaitingFor(0), inst);
    schedule := Moves(start, schedule, i, j, Releasing(refused), WaitingFor(0), inst);
    schedule := Moves(start, schedule, j, i, WaitingFor(0), Done(refused), inst);
    schedule := Moves(start, schedule, j, i, Releasing(Unpublished), Done(refused), left);
  }

  // ---- Exactly when ----------------------------------------------------------------------------------

  ghost predicate Explainable(start: Sys, s: Sys, n: string) {
    exists order :: ExplainedBy(start, s, n, order)
  }

  ghost predicate AlwaysSerialisable(start: Sys) {
    forall schedule: seq<nat>, n: string :: Explainable(start, Run(start, schedule), n)
  }

  /** Without the lock, handlers whose provider calls all go well, on instances where
      nothing is half detached, are serialisable under every schedule if and only if there
      are no rivals among them. */
  lemma WellMetSerialisableExactlyWhen(start: Sys)
    requires Initial(start) && !start.lockEnabled
    requires forall i | 0 <= i < |start.reqs| && Objection(start.reqs[i]).None? :: WellMet(start.reqs[i])
    requires forall n :: NoneDetaching(InstanceAt(start, n))
    ensures AlwaysSerialisable(start) <==> NoRivals(start.reqs)
  {
    if NoRivals(start.reqs) {
      forall schedule: seq<nat>, n: string
        ensures Explainable(start, Run(start, schedule), n)
      {
        NoRivalsNoLockNeeded(start, schedule, n);
      }
    } else {
      var i, j :| 0 <= i < |start.reqs| && 0 <= j < |start.reqs| && Rivals(start.reqs[i], start.reqs[j]);
      var n := start.reqs[i].nodeID;
      assert NoneDetaching(InstanceAt(start, n));
      var busy, schedule := RivalsCollide(start, i, j);
      forall order: seq<nat>
        ensures !ExplainedBy(start, Run(start, schedule), n, order)
      {
        CollisionUnexplained(start, Run(start, schedule), n, order, i);
      }
      assert !Explainable(start, Run(start, schedule), n);
    }
  }

  /** No order of such handlers makes a smooth publish fail. */
  lemma CollisionUnexplained(start: Sys, s: Sys, n: string, order: seq<nat>, i: nat)
    requires s.reqs == start.reqs && i < |s.pcs| == |s.reqs| && NodeOf(s, i) == n
    requires s.pcs[i] == Done(Refused(BackendError)) && s.reqs[i].Publish? && Smooth(s.reqs[i])
    requires forall k | 0 <= k < |s.reqs| && Objection(s.reqs[k]).None? :: WellMet(s.reqs[k])
    requires NoneDetaching(InstanceAt(start, n))
    ensures !ExplainedBy(start, s, n, order)
  {
    if ExplainedBy(start, s, n, order) {
      var base := InstanceAt(start, n);
      assert InTurn(base, s.reqs, order, n, i, s.pcs[i].answer);
      var k: nat :| k < |order| && order[k] == i && s.pcs[i].answer == SerialResponse(base, s.reqs, order, n, k);
      WellMetSerial(base, s.reqs, order[..k], n);
      WellMetWhole(Serial(base, s.reqs, order[..k], n), s.reqs[i]);
      assert false;
    }
  }

  // ---- Whatever the provider does ----------------------------------------------------------------------

  /** The same requests, meeting other outcomes of their provider calls. */
  function WithEnv(req: Request, env: Env): Request {
    match req
    case Publish(volumeID, nodeID, capability, _) => Publish(volumeID, nodeID, capability, env)
    case Unpublish(volumeID, nodeID, _) => Unpublish(volumeID, nodeID, env)
  }

  function WithEnvs(start: Sys, envs: seq<Env>): Sys
    requires |envs| == |start.reqs|
  {
    start.(reqs := seq(|envs|, i requires 0 <= i < |envs| => WithEnv(start.reqs[i], envs[i])))
  }

  lemma EnvsDoNotMakeRivals(start: Sys, envs: seq<Env>)
    requires |envs| == |start.reqs|
    ensures NoRivals(WithEnvs(start, envs).reqs) <==> NoRivals(start.reqs)
  {
    var reqs' := WithEnvs(start, envs).reqs;
    forall i, j | 0 <= i < |envs| && 0 <= j < |envs|
      ensures Rivals(reqs'[i], reqs'[j]) <==> Rivals(start.reqs[i], start.reqs[j])
    {
    }
  }

  /** Requests are serialisable under every schedule, whatever their provider calls will do. */
  ghost predicate SerialisableInAnyEnv(start: Sys) {
    forall envs: seq<Env> | |envs| == |start.reqs| :: AlwaysSerialisable(WithEnvs(start, envs))
  }

  /** What a caller can see beforehand decides: without the lock, where nothing is being
      detached already, requests are serialisable under every schedule and whatever the
      provider does if and only if no unpublish, and no publish of a supported capability,
      name the same volume and instance. */
  lemma SerialisableExactlyWhen(start: Sys)
    requires Initial(start) && !start.lockEnabled
    requires forall n :: NoneDetaching(InstanceAt(start, n))
    ensures SerialisableInAnyEnv(start) <==> NoRivals(start.reqs)
  {
    if NoRivals(start.reqs) {
      forall envs: seq<Env> | |envs| == |start.reqs|
        ensures AlwaysSerialisable(WithEnvs(start, envs))
      {
        EnvsDoNotMakeRivals(start, envs);
        forall schedule: seq<nat>, n: string
          ensures Explainable(WithEnvs(start, envs), Run(WithEnvs(start, envs), schedule), n)
        {
          NoRivalsNoLockNeeded(WithEnvs(start, envs), schedule, n);
        }
      }
    } else {
      var envs := seq(|start.reqs|, i requires 0 <= i < |start.reqs| => SMOOTH);
      var met := WithEnvs(start, envs);
      EnvsDoNotMakeRivals(start, envs);
      assert forall n :: InstanceAt(met, n) == InstanceAt(start, n);
      WellMetSerialisableExactlyWhen(met);
      assert !AlwaysSerialisable(met);
    }
  }

  // ---- A witness --------------------------------------------------------------------------------------

  const CAPABILITY := VolumeCapability(SingleNodeWriter, MountFs("ext4", []))
  const SMOOTH := Env(true, Found, Fine, Fine, "/dev/vdb", "request")
  const ATTACH := Publish("volume", "node", Some(CAPABILITY), SMOOTH)
  const DETACH := Unpublish("volume", "node", SMOOTH)
  const RIVALS := Sys(false, [ATTACH, DETACH], [Idle, Idle], map[], map[], map[])

  /** The shipped configuration: two handlers of one instance at work at once, and a publish
      that fails although every serial run lets it succeed. */
  lemma UnlockedIsNotSerialisable() returns (busy: seq<nat>, schedule: seq<nat>)
    ensures Initial(RIVALS) && !RIVALS.lockEnabled
    ensures |Run(RIVALS, busy).pcs| >= 2 && Busy(Run(RIVALS, busy).pcs[0]) && Busy(Run(RIVALS, busy).pcs[1])
    ensures Run(RIVALS, schedule).pcs == [Done(Refused(BackendError)), Done(Unpublished)]
    ensures !AlwaysSerialisable(RIVALS)
  {
    assert DRIVER_MODES[0] == SingleNodeWriter;
    assert Smooth(ATTACH) && Smooth(DETACH);
    assert NoneDetaching(EMPTY_INSTANCE);
    busy, schedule := RivalsCollide(RIVALS, 0, 1);
    WellMetSerialisableExactlyWhen(RIVALS);
    assert Rivals(RIVALS.reqs[0], RIVALS.reqs[1]);
  }
}
