/** Any number of publish and unpublish handlers running at once, one step at a time, with
    a lock per instance. Each handler carries the outcomes its own provider calls will
    have; the schedule decides who moves. With the lock enabled every schedule amounts,
    for each instance, to running its handlers one by one in the order in which they
    took the lock. */
module AttachProtocol {
  import opened Common
  import opened Provider
  import opened Attachments

  // ---- One handler, step by step --------------------------------------------------------

  /** Where a handler stands. Between taking and releasing the lock it is busy. */
  datatype Pc =
    | Idle | Waiting
    | CheckingCapability | GettingSession | LookingUp | Acting | WaitingFor(id: nat)
    | Releasing(response: Response)
    | Done(answer: Response)

  predicate Busy(pc: Pc) {
    !pc.Idle? && !pc.Waiting? && !pc.Done?
  }

  function FirstPc(req: Request): Pc {
    if req.Publish? then CheckingCapability else GettingSession
  }

  datatype Moved = Moved(instance: Instance, pc: Pc)

  /** One provider interaction, or one decision, of a busy handler. */
  function Advance(inst: Instance, req: Request, pc: Pc): Moved
    requires Busy(pc) && !pc.Releasing? && Objection(req).None?
  {
    match pc
    case CheckingCapability =>
      if req.Publish? && !AllSupported([req.capability.value], DRIVER_MODES)
      then Moved(inst, Releasing(Refused(VolumeCapabilitiesNotSupported)))
      else Moved(inst, GettingSession)
    case GettingSession =>
      if !req.env.session then Moved(inst, Releasing(Refused(InternalError)))
      else Moved(inst, if req.Publish? then LookingUp else Acting)
    case LookingUp =>
      if req.env.lookup == Missing then Moved(inst, Releasing(Refused(ObjectNotFound)))
      else if req.env.lookup == Broken then Moved(inst, Releasing(Refused(InternalError)))
      else Moved(inst, Acting)
    case Acting =>
      if req.Publish? then
        var attached := AttachVolume(inst, req.volumeID, req.env.devicePath, req.env.act);
        Moved(attached.instance,
              if attached.result.Ok? then WaitingFor(attached.result.value.id)
              else Releasing(BackendOf(attached.result.error)))
      else
        var detached := DetachVolume(inst, req.volumeID, req.env.act);
        Moved(detached.instance,
              if detached.result.Ok? then WaitingFor(0) else Releasing(Refused(BackendError)))
    case WaitingFor(id) =>
      if req.Publish? then
        var waited := WaitForAttachVolume(inst, req.volumeID, id, req.env.wait);
        Moved(waited.instance,
              Releasing(if waited.result.Ok? then Published(PublishContext(req, waited.result.value))
                        else Refused(BackendError)))
      else
        var waited := WaitForDetachVolume(inst, req.volumeID, req.env.wait);
        Moved(waited.instance, Releasing(if waited.result.Ok? then Unpublished else Refused(BackendError)))
    case _ => Moved(inst, pc)
  }

  /** How many steps a handler has ahead of it, at most. */
  function Rank(pc: Pc): nat {
    match pc
    case Idle => 8
    case Waiting => 7
    case CheckingCapability => 6
    case GettingSession => 5
    case LookingUp => 4
    case Acting => 3
    case WaitingFor(_) => 2
    case Releasing(_) => 1
    case Done(_) => 0
  }

  lemma AdvanceDescends(inst: Instance, req: Request, pc: Pc)
    requires Busy(pc) && !pc.Releasing? && Objection(req).None?
    ensures Busy(Advance(inst, req, pc).pc) && Rank(Advance(inst, req, pc).pc) < Rank(pc)
  {
  }

  /** The rest of a busy handler, with nobody in between. */
  function Finish(inst: Instance, req: Request, pc: Pc): Handled
    requires Busy(pc) && Objection(req).None?
    decreases Rank(pc)
  {
    if pc.Releasing? then Handled(inst, pc.response)
    else
      var moved := Advance(inst, req, pc);
      Finish(moved.instance, req, moved.pc)
  }

  /** From its first step, a handler left alone is the handler run as a whole. */
  lemma FinishIsWhole(inst: Instance, req: Request)
    requires Objection(req).None?
    ensures Finish(inst, req, FirstPc(req)) == HandledWhole(inst, req)
  {
    FinishWhenActing(inst, req);
    if req.Publish? {
      assert Finish(inst, req, LookingUp)
          == if req.env.lookup == Missing then Handled(inst, Refused(ObjectNotFound))
             else if req.env.lookup == Broken then Handled(inst, Refused(InternalError))
             else Finish(inst, req, Acting);
      assert Finish(inst, req, GettingSession)
          == if !req.env.session then Handled(inst, Refused(InternalError)) else Finish(inst, req, LookingUp);
    }
  }

  lemma FinishWhenActing(inst: Instance, req: Request)
    requires Objection(req).None?
    ensures req.Publish? && req.env.session && req.env.lookup.Found?
            && AllSupported([req.capability.value], DRIVER_MODES)
            ==> Finish(inst, req, Acting) == PublishHandled(inst, req)
    ensures req.Unpublish? && req.env.session ==> Finish(inst, req, Acting) == UnpublishHandled(inst, req)
  {
    var moved := Advance(inst, req, Acting);
    assert Finish(inst, req, Acting) == Finish(moved.instance, req, moved.pc);
    if moved.pc.WaitingFor? {
      var last := Advance(moved.instance, req, moved.pc);
      assert Finish(moved.instance, req, moved.pc) == Finish(last.instance, req, last.pc);
    }
  }

  // ---- The system ---------------------------------------------------------------------------

  /** `held` says who holds each instance's lock; `order` records, for each instance, the
      handlers in the order in which they passed its lock. */
  datatype Sys = Sys(
    lockEnabled: bool,
    reqs: seq<Request>,
    pcs: seq<Pc>,
    held: map<string, nat>,
    instances: map<string, Instance>,
    order: map<string, seq<nat>>)

  function InstanceAt(s: Sys, n: string): Instance {
    if n in s.instances then s.instances[n] else EMPTY_INSTANCE
  }

  function OrderAt(s: Sys, n: string): seq<nat> {
    if n in s.order then s.order[n] else []
  }

  function NodeOf(s: Sys, i: nat): string
    requires i < |s.reqs|
  {
    s.reqs[i].nodeID
  }

  function HolderAt(s: Sys, n: string): Option<nat> {
    if n in s.held then Some(s.held[n]) else None
  }

  /** A handler waiting for an enabled lock moves only once the lock is free. */
  predicate Can(s: Sys, i: nat) {
    && i < |s.pcs| == |s.reqs|
    && !s.pcs[i].Done?
    && (s.pcs[i].Idle? || Objection(s.reqs[i]).None?)
    && (s.pcs[i].Waiting? && s.lockEnabled ==> NodeOf(s, i) !in s.held)
  }

  /** The part of the system a handler reads and writes: its own counter, and its
      instance with the lock and the order of that instance. */
  datatype View = View(pc: Pc, instance: Instance, order: seq<nat>, holder: Option<nat>)

  function ViewOf(s: Sys, i: nat): View
    requires i < |s.pcs| == |s.reqs|
  {
    var n := NodeOf(s, i);
    View(s.pcs[i], InstanceAt(s, n), OrderAt(s, n), HolderAt(s, n))
  }

  function Put<K, V>(m: map<K, V>, k: K, entry: Option<V>): map<K, V> {
    if entry.Some? then m[k := entry.value] else m - {k}
  }

  function Install(s: Sys, i: nat, v: View): Sys
    requires i < |s.pcs| == |s.reqs|
  {
    var n := NodeOf(s, i);
    s.(pcs := s.pcs[i := v.pc],
       held := Put(s.held, n, v.holder),
       instances := s.instances[n := v.instance],
       order := s.order[n := v.order])
  }

  /** Validation comes before any lock; the deferred unlock comes on whichever path the
      handler leaves. */
  function Stepped(lockEnabled: bool, i: nat, req: Request, v: View): View
    requires !v.pc.Done? && (v.pc.Idle? || Objection(req).None?)
  {
    if v.pc.Idle? then
      v.(pc := if Objection(req).Some? then Done(Refused(Objection(req).value)) else Waiting)
    else if v.pc.Waiting? then
      v.(pc := FirstPc(req), order := v.order + [i], holder := if lockEnabled then Some(i) else v.holder)
    else if v.pc.Releasing? then
      v.(pc := Done(v.pc.response), holder := if lockEnabled then None else v.holder)
    else
      var moved := Advance(v.instance, req, v.pc);
      v.(pc := moved.pc, instance := moved.instance)
  }

  function Next(s: Sys, i: nat): Sys
    requires Can(s, i)
  {
    Install(s, i, Stepped(s.lockEnabled, i, s.reqs[i], ViewOf(s, i)))
  }

  function Turn(s: Sys, i: nat): Sys {
    if Can(s, i) then Next(s, i) else s
  }

  /** A schedule names handlers; a turn given to one that cannot move is lost. */
  function Run(s: Sys, schedule: seq<nat>): Sys
    decreases |schedule|
  {
    if schedule == [] then s else Run(Turn(s, schedule[0]), schedule[1..])
  }

  lemma {:induction false} RunAppend(s: Sys, a: seq<nat>, b: seq<nat>)
    ensures Run(s, a + b) == Run(Run(s, a), b)
    decreases |a|
  {
    if a == [] {
      assert a + b == b;
    } else {
      assert (a + b)[1..] == a[1..] + b;
      RunAppend(Turn(s, a[0]), a[1..], b);
    }
  }

  predicate Initial(s: Sys) {
    && |s.pcs| == |s.reqs|
    && (forall i | 0 <= i < |s.pcs| :: s.pcs[i] == Idle)
    && s.held == map[] && s.order == map[]
  }

  predicate AllDone(s: Sys) {
    forall i | 0 <= i < |s.pcs| :: s.pcs[i].Done?
  }

  // ---- Steps ---------------------------------------------------------------------------------

  /** What a step of handler i cannot touch. */
  ghost predicate Framed(s: Sys, t: Sys, i: nat)
    requires i < |s.reqs|
  {
    && t.lockEnabled == s.lockEnabled && t.reqs == s.reqs && |t.pcs| == |s.pcs|
    && (forall j | 0 <= j < |s.pcs| && j != i :: t.pcs[j] == s.pcs[j])
    && (forall m: string | m != NodeOf(s, i) ::
          InstanceAt(t, m) == InstanceAt(s, m) && OrderAt(t, m) == OrderAt(s, m) && HolderAt(t, m) == HolderAt(s, m))
    && (OrderAt(t, NodeOf(s, i)) == OrderAt(s, NodeOf(s, i))
        || OrderAt(t, NodeOf(s, i)) == OrderAt(s, NodeOf(s, i)) + [i])
  }

  lemma InstallFrame(s: Sys, i: nat, v: View)
    requires i < |s.pcs| == |s.reqs|
    requires v.order == OrderAt(s, NodeOf(s, i)) || v.order == OrderAt(s, NodeOf(s, i)) + [i]
    ensures Framed(s, Install(s, i, v), i) && ViewOf(Install(s, i, v), i) == v
  {
  }

  lemma PutsCommute<K, V>(m: map<K, V>, k: K, u: Option<V>, l: K, v: Option<V>)
    requires k != l
    ensures Put(Put(m, k, u), l, v) == Put(Put(m, l, v), k, u)
  {
  }

  lemma InstallsCommute(s: Sys, i: nat, v: View, j: nat, w: View)
    requires i < |s.pcs| == |s.reqs| && j < |s.pcs| && NodeOf(s, i) != NodeOf(s, j)
    ensures Install(Install(s, i, v), j, w) == Install(Install(s, j, w), i, v)
  {
    var m, n := NodeOf(s, i), NodeOf(s, j);
    PutsCommute(s.held, m, v.holder, n, w.holder);
    PutsCommute(s.instances, m, Some(v.instance), n, Some(w.instance));
    PutsCommute(s.order, m, Some(v.order), n, Some(w.order));
    assert s.pcs[i := v.pc][j := w.pc] == s.pcs[j := w.pc][i := v.pc];
  }

  lemma InstallElsewhere(s: Sys, i: nat, v: View, j: nat)
    requires i < |s.pcs| == |s.reqs| && j < |s.pcs| && NodeOf(s, i) != NodeOf(s, j)
    ensures ViewOf(Install(s, i, v), j) == ViewOf(s, j)
  {
  }

  lemma NextFrame(s: Sys, i: nat)
    requires Can(s, i)
    ensures Framed(s, Next(s, i), i)
    ensures ViewOf(Next(s, i), i) == Stepped(s.lockEnabled, i, s.reqs[i], ViewOf(s, i))
  {
    InstallFrame(s, i, Stepped(s.lockEnabled, i, s.reqs[i], ViewOf(s, i)));
  }

  /** Handlers of different instances never exclude each other, and the order of their
      steps does not matter. */
  lemma StepsCommute(s: Sys, i: nat, j: nat)
    requires Can(s, i) && Can(s, j) && NodeOf(s, i) != NodeOf(s, j)
    ensures Can(Next(s, i), j) && Can(Next(s, j), i)
    ensures Next(Next(s, i), j) == Next(Next(s, j), i)
  {
    var v := Stepped(s.lockEnabled, i, s.reqs[i], ViewOf(s, i));
    var w := Stepped(s.lockEnabled, j, s.reqs[j], ViewOf(s, j));
    InstallsCommute(s, i, v, j, w);
    InstallElsewhere(s, i, v, j);
    InstallElsewhere(s, j, w, i);
  }

  function TotalRank(pcs: seq<Pc>): nat {
    if pcs == [] then 0 else Rank(pcs[|pcs| - 1]) + TotalRank(pcs[..|pcs| - 1])
  }

  lemma {:induction false} TotalRankUpdate(pcs: seq<Pc>, i: nat, pc: Pc)
    requires i < |pcs|
    ensures TotalRank(pcs[i := pc]) + Rank(pcs[i]) == TotalRank(pcs) + Rank(pc)
  {
    var last := |pcs| - 1;
    if i == last {
      assert pcs[i := pc][..last] == pcs[..last];
    } else {
      assert pcs[i := pc][..last] == pcs[..last][i := pc];
      TotalRankUpdate(pcs[..last], i, pc);
    }
  }

  /** Every step brings the whole system closer to its end, with or without the lock. */
  lemma StepsDescend(s: Sys, i: nat)
    requires Can(s, i)
    ensures TotalRank(Next(s, i).pcs) < TotalRank(s.pcs)
  {
    var pc := Stepped(s.lockEnabled, i, s.reqs[i], ViewOf(s, i)).pc;
    if Busy(s.pcs[i]) && !s.pcs[i].Releasing? {
      AdvanceDescends(InstanceAt(s, NodeOf(s, i)), s.reqs[i], s.pcs[i]);
    }
    TotalRankUpdate(s.pcs, i, pc);
  }
}
