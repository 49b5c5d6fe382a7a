/** What the lock is needed for. Whether or not it is enabled, every schedule is
    serialisable, in the order in which the handlers decide, unless the requests hold a
    publish and an unpublish of one volume on one instance. */
module AttachConflicts {
  import opened Common
  import opened Provider
  import opened Attachments
  import opened AttachProtocol
  import opened AttachSerial

  /** A publish that is not refused for its capability, or any unpublish. */
  predicate Supported(req: Request)
    requires Objection(req).None?
  {
    req.Publish? ==> AllSupported([req.capability.value], DRIVER_MODES)
  }

  /** Two requests that pull one attachment both ways. */
  predicate Rivals(p: Request, u: Request) {
    && p.Publish? && u.Unpublish? && p.nodeID == u.nodeID && p.volumeID == u.volumeID
    && Objection(p).None? && Objection(u).None? && Supported(p)
  }

  predicate NoRivals(reqs: seq<Request>) {
    forall i, j | 0 <= i < |reqs| && 0 <= j < |reqs| :: !Rivals(reqs[i], reqs[j])
  }

  // ---- Deciding ---------------------------------------------------------------------------

  /** A handler has decided once its attach or detach call is made, or it is refused. */
  predicate Decided(pc: Pc) {
    pc.WaitingFor? || pc.Releasing? || pc.Done?
  }

  predicate Undecided(pc: Pc) {
    Busy(pc) && !Decided(pc)
  }

  /** What an undecided handler has already passed. */
  predicate Passed(req: Request, pc: Pc) {
    && Objection(req).None?
    && (pc.CheckingCapability? ==> req.Publish?)
    && (pc.GettingSession? || pc.LookingUp? || pc.Acting? ==> Supported(req))
    && (pc.LookingUp? || pc.Acting? ==> req.env.session)
    && (pc.LookingUp? ==> req.Publish?)
    && (pc.Acting? && req.Publish? ==> req.env.lookup.Found?)
  }

  /** Does this turn decide handler i of instance n? */
  predicate DecidesNow(s: Sys, i: nat, n: string) {
    Can(s, i) && NodeOf(s, i) == n && Undecided(s.pcs[i]) && Decided(Next(s, i).pcs[i])
  }

  function DecidedNow(s: Sys, i: nat, n: string): seq<nat> {
    if DecidesNow(s, i, n) then [i] else []
  }

  /** The handlers of one instance that decide during a schedule, in that order. */
  function Decisions(s: Sys, schedule: seq<nat>, n: string): seq<nat>
    decreases |schedule|
  {
    if schedule == [] then []
    else
      var i := schedule[0];
      DecidedNow(s, i, n) + Decisions(Turn(s, i), schedule[1..], n)
  }

  // ---- How far the instance lags behind the serial run -----------------------------------------

  predicate TakesEffect(fault: CallFault) {
    fault.Fine? || fault.FailsAfter?
  }

  /** A handler whose wait will still settle this volume. */
  predicate Owes(req: Request, pc: Pc, n: string, v: string, publish: bool) {
    && pc.WaitingFor? && req.nodeID == n && req.volumeID == v && req.Publish? == publish
    && TakesEffect(req.env.wait)
  }

  ghost predicate Owed(reqs: seq<Request>, pcs: seq<Pc>, n: string, v: string, publish: bool)
    requires |reqs| == |pcs|
  {
    exists i | 0 <= i < |reqs| :: Owes(reqs[i], pcs[i], n, v, publish)
  }

  ghost predicate OwedByOthers(reqs: seq<Request>, pcs: seq<Pc>, i: nat, n: string, v: string, publish: bool)
    requires |reqs| == |pcs|
  {
    exists j | 0 <= j < |reqs| && j != i :: Owes(reqs[j], pcs[j], n, v, publish)
  }

  /** One volume of the instance (`a`) and of the serial run (`b`): the serial run is ahead
      by the waits still owed. */
  predicate VolumeLags(a: map<string, Attachment>, b: map<string, Attachment>, v: string, attach: bool, detach: bool) {
    && (v !in a ==> v !in b && !attach)
    && (v in a && !attach && !detach ==> v in b && b[v] == a[v])
    && (v in a && attach ==> a[v].status != Detaching && v in b && b[v] == a[v].(status := Attached))
    && (v in a && detach ==> a[v].status == Detaching && v !in b)
  }

  ghost predicate Lags(inst: Instance, serial: Instance, reqs: seq<Request>, pcs: seq<Pc>, n: string)
    requires |reqs| == |pcs|
  {
    && inst.nextId == serial.nextId
    && forall v :: VolumeLags(inst.attachments, serial.attachments, v,
                              Owed(reqs, pcs, n, v, true), Owed(reqs, pcs, n, v, false))
  }

  /** What a waiting handler will answer. */
  function Promised(inst: Instance, req: Request): Response
    requires req.Publish? ==> req.volumeID in inst.attachments
  {
    if !req.env.wait.Fine? then Refused(BackendError)
    else if req.Publish? then Published(PublishContext(req, inst.attachments[req.volumeID]))
    else Unpublished
  }

  /** What a waiting handler relies on. */
  predicate StillThere(inst: Instance, req: Request, id: nat) {
    var att := inst.attachments;
    if req.Publish? then
      req.volumeID in att && att[req.volumeID].id == id && att[req.volumeID].status != Detaching
    else req.volumeID in att ==> att[req.volumeID].status == Detaching
  }

  ghost predicate HandlerLaw(base: Instance, inst: Instance, reqs: seq<Request>, order: seq<nat>, n: string,
                             i: nat, pc: Pc)
    requires i < |reqs|
  {
    var req := reqs[i];
    && (i in order <==> Decided(pc) && Objection(req).None?)
    && (pc.Waiting? || Busy(pc) ==> Objection(req).None?)
    && (Undecided(pc) ==> Passed(req, pc))
    && (pc.WaitingFor? ==> Passed(req, Acting))
    && (pc.Done? && Objection(req).Some? ==> pc.answer == Refused(Objection(req).value))
    && (pc.WaitingFor? ==> StillThere(inst, req, pc.id) && InTurn(base, reqs, order, n, i, Promised(inst, req)))
    && (pc.Releasing? ==> InTurn(base, reqs, order, n, i, pc.response))
    && (pc.Done? && Objection(req).None? ==> InTurn(base, reqs, order, n, i, pc.answer))
  }

  ghost predicate Law(base: Instance, s: Sys, n: string, order: seq<nat>) {
    && |s.pcs| == |s.reqs|
    && ValidOrder(s.reqs, order, n) && Distinct(order)
    && Lags(InstanceAt(s, n), Serial(base, s.reqs, order, n), s.reqs, s.pcs, n)
    && forall i: nat | i < |s.pcs| && NodeOf(s, i) == n ::
      HandlerLaw(base, InstanceAt(s, n), s.reqs, order, n, i, s.pcs[i])
  }

  // ---- One call against both ----------------------------------------------------------------------

  lemma OwedSplits(reqs: seq<Request>, pcs: seq<Pc>, i: nat, pc: Pc, n: string, v: string, publish: bool)
    requires i < |reqs| == |pcs|
    ensures Owed(reqs, pcs, n, v, publish)
            <==> OwedByOthers(reqs, pcs, i, n, v, publish) || Owes(reqs[i], pcs[i], n, v, publish)
    ensures Owed(reqs, pcs[i := pc], n, v, publish)
            <==> OwedByOthers(reqs, pcs, i, n, v, publish) || Owes(reqs[i], pc, n, v, publish)
  {
    var pcs' := pcs[i := pc];
    if OwedByOthers(reqs, pcs, i, n, v, publish) {
      var j :| 0 <= j < |reqs| && j != i && Owes(reqs[j], pcs[j], n, v, publish);
      assert Owes(reqs[j], pcs'[j], n, v, publish);
    }
    if Owed(reqs, pcs', n, v, publish) {
      var j :| 0 <= j < |reqs| && Owes(reqs[j], pcs'[j], n, v, publish);
      assert j != i ==> Owes(reqs[j], pcs[j], n, v, publish);
    }
    assert Owes(reqs[i], pcs'[i], n, v, publish) == Owes(reqs[i], pc, n, v, publish);
  }

  /** Without rivals, what others owe to the volume of handler i is of i's own kind. */
  lemma NobodyOwesTheOpposite(s: Sys, n: string, i: nat)
    requires NoRivals(s.reqs) && i < |s.pcs| == |s.reqs| && NodeOf(s, i) == n
    requires Objection(s.reqs[i]).None? && Supported(s.reqs[i])
    requires forall j: nat | j < |s.pcs| && NodeOf(s, j) == n && s.pcs[j].WaitingFor? ::
               Objection(s.reqs[j]).None? && Supported(s.reqs[j])
    ensures !Owed(s.reqs, s.pcs, n, s.reqs[i].volumeID, !s.reqs[i].Publish?)
  {
    var v, opposite := s.reqs[i].volumeID, !s.reqs[i].Publish?;
    forall j: nat | j < |s.reqs|
      ensures !Owes(s.reqs[j], s.pcs[j], n, v, opposite)
    {
      assert !Rivals(s.reqs[i], s.reqs[j]) && !Rivals(s.reqs[j], s.reqs[i]);
    }
  }

  /** The attach or detach call, at its own volume: made on the lagging instance, against
      the whole handler run on the serial one. */
  lemma ActOnVolume(inst: Instance, serial: Instance, req: Request, n: string, attach: bool, detach: bool)
    requires Passed(req, Acting) && req.nodeID == n && inst.nextId == serial.nextId
    requires VolumeLags(inst.attachments, serial.attachments, req.volumeID, attach, detach)
    requires if req.Publish? then !detach else !attach
    ensures var moved, whole, v := Advance(inst, req, Acting), HandledWhole(serial, req), req.volumeID;
            && moved.instance.nextId == whole.instance.nextId
            && VolumeLags(moved.instance.attachments, whole.instance.attachments, v,
                          attach || Owes(req, moved.pc, n, v, true), detach || Owes(req, moved.pc, n, v, false))
            && (moved.pc.WaitingFor? ==>
                  StillThere(moved.instance, req, moved.pc.id) && whole.response == Promised(moved.instance, req))
            && (moved.pc.Releasing? ==> whole.response == moved.pc.response)
            && (moved.pc.WaitingFor? || moved.pc.Releasing?)
  {
    if req.Publish? {
      assert HandledWhole(serial, req) == PublishHandled(serial, req);
    } else {
      assert HandledWhole(serial, req) == UnpublishHandled(serial, req);
    }
  }

  lemma WaitOnVolume(inst: Instance, serial: Instance, req: Request, id: nat, n: string, attach: bool, detach: bool)
    requires Objection(req).None? && req.nodeID == n && StillThere(inst, req, id)
    requires VolumeLags(inst.attachments, serial.attachments, req.volumeID,
                        attach || Owes(req, WaitingFor(id), n, req.volumeID, true),
                        detach || Owes(req, WaitingFor(id), n, req.volumeID, false))
    requires if req.Publish? then !detach else !attach
    ensures var moved, v := Advance(inst, req, WaitingFor(id)), req.volumeID;
            && moved.instance.nextId == inst.nextId
            && VolumeLags(moved.instance.attachments, serial.attachments, v, attach, detach)
            && moved.pc == Releasing(Promised(inst, req))
  {
  }

  ghost predicate AlikeBut(a: Instance, b: Instance, v: string) {
    forall u | u != v ::
      && (u in a.attachments <==> u in b.attachments)
      && (u in a.attachments ==> a.attachments[u] == b.attachments[u])
  }

  /** Either call, and the whole handler, leave every other volume alone. */
  lemma CallsElsewhere(inst: Instance, req: Request, pc: Pc)
    requires Objection(req).None? && (pc.Acting? || pc.WaitingFor?)
    ensures AlikeBut(inst, Advance(inst, req, pc).instance, req.volumeID)
  {
  }

  lemma WholeElsewhere(inst: Instance, req: Request)
    requires Objection(req).None?
    ensures AlikeBut(inst, HandledWhole(inst, req).instance, req.volumeID)
  {
  }

  lemma CallsKeepOthersWaiting(inst: Instance, req: Request, pc: Pc, other: Request, id: nat)
    requires Objection(req).None? && (pc.Acting? || pc.WaitingFor?)
    requires StillThere(inst, other, id)
    requires other.volumeID == req.volumeID ==> other.Publish? == req.Publish?
    ensures var after := Advance(inst, req, pc).instance;
            && StillThere(after, other, id)
            && Promised(after, other) == Promised(inst, other)
  {
    if other.volumeID != req.volumeID {
      CallsElsewhere(inst, req, pc);
    }
  }

  // ---- One step of the system -------------------------------------------------------------------

  /** Lagging is kept if the step of handler i keeps it at i's own volume. */
  lemma LagsStep(inst: Instance, serial: Instance, inst': Instance, serial': Instance,
                 reqs: seq<Request>, pcs: seq<Pc>, i: nat, pc: Pc, n: string)
    requires i < |reqs| == |pcs| && Lags(inst, serial, reqs, pcs, n) && inst'.nextId == serial'.nextId
    requires AlikeBut(inst, inst', reqs[i].volumeID) && AlikeBut(serial, serial', reqs[i].volumeID)
    requires var v := reqs[i].volumeID;
             VolumeLags(inst'.attachments, serial'.attachments, v,
                        OwedByOthers(reqs, pcs, i, n, v, true) || Owes(reqs[i], pc, n, v, true),
                        OwedByOthers(reqs, pcs, i, n, v, false) || Owes(reqs[i], pc, n, v, false))
    ensures Lags(inst', serial', reqs, pcs[i := pc], n)
  {
    var pcs' := pcs[i := pc];
    forall v
      ensures VolumeLags(inst'.attachments, serial'.attachments, v,
                         Owed(reqs, pcs', n, v, true), Owed(reqs, pcs', n, v, false))
    {
      OwedSplits(reqs, pcs, i, pc, n, v, true);
      OwedSplits(reqs, pcs, i, pc, n, v, false);
      assert VolumeLags(inst.attachments, serial.attachments, v,
                        Owed(reqs, pcs, n, v, true), Owed(reqs, pcs, n, v, false));
    }
  }

  lemma InTurnStays(base: Instance, reqs: seq<Request>, order: seq<nat>, n: string, j: nat, answer: Response,
                    order': seq<nat>)
    requires InTurn(base, reqs, order, n, j, answer) && order <= order' && ValidOrder(reqs, order', n)
    ensures InTurn(base, reqs, order', n, j, answer)
  {
    var k: nat :| k < |order| && order[k] == j && answer == SerialResponse(base, reqs, order, n, k);
    assert order'[..k] == order[..k] && order'[k] == j;
    assert answer == SerialResponse(base, reqs, order', n, k);
  }

  /** The last of an order answers as the whole handler does after the others. */
  lemma LastInTurn(base: Instance, reqs: seq<Request>, order: seq<nat>, n: string, i: nat)
    requires ValidOrder(reqs, order + [i], n) && ValidOrder(reqs, order, n)
    ensures Serial(base, reqs, order + [i], n) == HandledWhole(Serial(base, reqs, order, n), reqs[i]).instance
    ensures InTurn(base, reqs, order + [i], n, i, HandledWhole(Serial(base, reqs, order, n), reqs[i]).response)
  {
    var longer, k: nat := order + [i], |order|;
    assert longer[..k] == order && longer[k] == i;
    assert SerialResponse(base, reqs, longer, n, k) == HandledWhole(Serial(base, reqs, order, n), reqs[i]).response;
  }

  lemma OtherKeepsLaw(base: Instance, inst: Instance, reqs: seq<Request>, order: seq<nat>, n: string, j: nat, pc: Pc,
                      inst': Instance, order': seq<nat>)
    requires j < |reqs| && HandlerLaw(base, inst, reqs, order, n, j, pc)
    requires order <= order' && ValidOrder(reqs, order', n) && (j in order' <==> j in order)
    requires pc.WaitingFor? && StillThere(inst, reqs[j], pc.id) ==>
               StillThere(inst', reqs[j], pc.id) && Promised(inst', reqs[j]) == Promised(inst, reqs[j])
    ensures HandlerLaw(base, inst', reqs, order', n, j, pc)
  {
    if pc.WaitingFor? {
      InTurnStays(base, reqs, order, n, j, Promised(inst, reqs[j]), order');
    } else if pc.Releasing? {
      InTurnStays(base, reqs, order, n, j, pc.response, order');
    } else if pc.Done? && Objection(reqs[j]).None? {
      InTurnStays(base, reqs, order, n, j, pc.answer, order');
    }
  }

  /** A step elsewhere. */
  lemma LawElsewhere(base: Instance, s: Sys, n: string, order: seq<nat>, i: nat)
    requires Law(base, s, n, order) && Can(s, i) && NodeOf(s, i) != n
    ensures Law(base, Next(s, i), n, order)
  {
    NextFrame(s, i);
    var t := Next(s, i);
    assert t.pcs == s.pcs[i := t.pcs[i]];
    var inst, serial := InstanceAt(s, n), Serial(base, s.reqs, order, n);
    forall v
      ensures VolumeLags(inst.attachments, serial.attachments, v,
                         Owed(t.reqs, t.pcs, n, v, true), Owed(t.reqs, t.pcs, n, v, false))
    {
      OwedSplits(s.reqs, s.pcs, i, t.pcs[i], n, v, true);
      OwedSplits(s.reqs, s.pcs, i, t.pcs[i], n, v, false);
      assert VolumeLags(inst.attachments, serial.attachments, v,
                        Owed(s.reqs, s.pcs, n, v, true), Owed(s.reqs, s.pcs, n, v, false));
    }
  }

  ghost predicate StepKeepsOthers(s: Sys, i: nat, inst': Instance)
    requires i < |s.pcs| == |s.reqs|
  {
    forall j: nat | j < |s.pcs| && j != i && NodeOf(s, j) == NodeOf(s, i) && s.pcs[j].WaitingFor?
                    && StillThere(InstanceAt(s, NodeOf(s, i)), s.reqs[j], s.pcs[j].id) ::
      && StillThere(inst', s.reqs[j], s.pcs[j].id)
      && Promised(inst', s.reqs[j]) == Promised(InstanceAt(s, NodeOf(s, i)), s.reqs[j])
  }

  /** Put together: a step of handler i at its own instance. */
  lemma LawFromParts(base: Instance, s: Sys, n: string, order: seq<nat>, i: nat, order': seq<nat>)
    requires Law(base, s, n, order) && Can(s, i) && NodeOf(s, i) == n
    requires order' == order || order' == order + [i]
    requires ValidOrder(s.reqs, order', n) && Distinct(order')
    requires var v := Stepped(s.lockEnabled, i, s.reqs[i], ViewOf(s, i));
             && Lags(v.instance, Serial(base, s.reqs, order', n), s.reqs, s.pcs[i := v.pc], n)
             && HandlerLaw(base, v.instance, s.reqs, order', n, i, v.pc)
             && StepKeepsOthers(s, i, v.instance)
    ensures Law(base, Next(s, i), n, order')
  {
    NextFrame(s, i);
    var t, v := Next(s, i), Stepped(s.lockEnabled, i, s.reqs[i], ViewOf(s, i));
    assert t.pcs == s.pcs[i := v.pc];
    forall j: nat | j < |t.pcs| && NodeOf(t, j) == n
      ensures HandlerLaw(base, InstanceAt(t, n), t.reqs, order', n, j, t.pcs[j])
    {
      if j != i {
        OtherKeepsLaw(base, InstanceAt(s, n), s.reqs, order, n, j, s.pcs[j], v.instance, order');
      }
    }
  }

  /** Where handler i stands, at its own instance. */
  ghost predicate Here(base: Instance, s: Sys, n: string, order: seq<nat>, i: nat) {
    NoRivals(s.reqs) && Law(base, s, n, order) && Can(s, i) && NodeOf(s, i) == n
  }

  /** The owing of others, seen from handler i. */
  lemma OwingHere(base: Instance, s: Sys, n: string, order: seq<nat>, i: nat, pc: Pc)
    requires Here(base, s, n, order, i) && Objection(s.reqs[i]).None?
    ensures var v := s.reqs[i].volumeID;
            && (Supported(s.reqs[i]) ==> !OwedByOthers(s.reqs, s.pcs, i, n, v, !s.reqs[i].Publish?))
            && VolumeLags(InstanceAt(s, n).attachments, Serial(base, s.reqs, order, n).attachments, v,
                          OwedByOthers(s.reqs, s.pcs, i, n, v, true) || Owes(s.reqs[i], s.pcs[i], n, v, true),
                          OwedByOthers(s.reqs, s.pcs, i, n, v, false) || Owes(s.reqs[i], s.pcs[i], n, v, false))
  {
    var v := s.reqs[i].volumeID;
    if Supported(s.reqs[i]) {
      NobodyOwesTheOpposite(s, n, i);
    }
    OwedSplits(s.reqs, s.pcs, i, pc, n, v, true);
    OwedSplits(s.reqs, s.pcs, i, pc, n, v, false);
    assert VolumeLags(InstanceAt(s, n).attachments, Serial(base, s.reqs, order, n).attachments, v,
                      Owed(s.reqs, s.pcs, n, v, true), Owed(s.reqs, s.pcs, n, v, false));
  }

  /** Deciding takes handler i to the end of the order, where it answers as promised. */
  lemma DecidingKeepsLaw(base: Instance, inst: Instance, reqs: seq<Request>, order: seq<nat>, n: string, i: nat, pc: Pc)
    requires i < |reqs| && reqs[i].nodeID == n && Objection(reqs[i]).None? && i !in order
    requires ValidOrder(reqs, order, n) && Distinct(order)
    requires pc.WaitingFor? ==>
               && Passed(reqs[i], Acting)
               && StillThere(inst, reqs[i], pc.id)
               && HandledWhole(Serial(base, reqs, order, n), reqs[i]).response == Promised(inst, reqs[i])
    requires pc.Releasing? ==> HandledWhole(Serial(base, reqs, order, n), reqs[i]).response == pc.response
    requires pc.WaitingFor? || pc.Releasing?
    ensures ValidOrder(reqs, order + [i], n) && Distinct(order + [i])
    ensures HandlerLaw(base, inst, reqs, order + [i], n, i, pc)
    ensures Serial(base, reqs, order + [i], n) == HandledWhole(Serial(base, reqs, order, n), reqs[i]).instance
  {
    OrderExtends(reqs, order, n, i);
    LastInTurn(base, reqs, order, n, i);
    assert i in order + [i] by {
      assert (order + [i])[|order|] == i;
    }
  }

  lemma OrderExtends(reqs: seq<Request>, order: seq<nat>, n: string, i: nat)
    requires i < |reqs| && reqs[i].nodeID == n && Objection(reqs[i]).None? && i !in order
    requires ValidOrder(reqs, order, n) && Distinct(order)
    ensures ValidOrder(reqs, order + [i], n) && Distinct(order + [i])
  {
  }

  /** The calls of handler i do not disturb those who wait at its instance. */
  lemma WaitersStay(base: Instance, s: Sys, n: string, order: seq<nat>, i: nat)
    requires Here(base, s, n, order, i) && (s.pcs[i].Acting? || s.pcs[i].WaitingFor?)
    ensures StepKeepsOthers(s, i, Advance(InstanceAt(s, n), s.reqs[i], s.pcs[i]).instance)
  {
    forall j: nat | j < |s.pcs| && j != i && NodeOf(s, j) == n && s.pcs[j].WaitingFor?
                    && StillThere(InstanceAt(s, n), s.reqs[j], s.pcs[j].id)
      ensures var after := Advance(InstanceAt(s, n), s.reqs[i], s.pcs[i]).instance;
              && StillThere(after, s.reqs[j], s.pcs[j].id)
              && Promised(after, s.reqs[j]) == Promised(InstanceAt(s, n), s.reqs[j])
    {
      assert HandlerLaw(base, InstanceAt(s, n), s.reqs, order, n, j, s.pcs[j]);
      assert !Rivals(s.reqs[i], s.reqs[j]) && !Rivals(s.reqs[j], s.reqs[i]);
      CallsKeepOthersWaiting(InstanceAt(s, n), s.reqs[i], s.pcs[i], s.reqs[j], s.pcs[j].id);
    }
  }

  lemma ActStep(base: Instance, s: Sys, n: string, order: seq<nat>, i: nat)
    requires Here(base, s, n, order, i) && s.pcs[i].Acting?
    ensures Law(base, Next(s, i), n, order + [i])
  {
    var inst, serial, req := InstanceAt(s, n), Serial(base, s.reqs, order, n), s.reqs[i];
    var moved := Advance(inst, req, Acting);
    assert HandlerLaw(base, inst, s.reqs, order, n, i, s.pcs[i]);
    ActLags(base, s, n, order, i);
    DecidingKeepsLaw(base, moved.instance, s.reqs, order, n, i, moved.pc);
    WaitersStay(base, s, n, order, i);
    LawFromParts(base, s, n, order, i, order + [i]);
  }

  lemma ActLags(base: Instance, s: Sys, n: string, order: seq<nat>, i: nat)
    requires Here(base, s, n, order, i) && s.pcs[i].Acting?
    ensures var inst, serial, req := InstanceAt(s, n), Serial(base, s.reqs, order, n), s.reqs[i];
            var moved := Advance(inst, req, Acting);
            && Lags(moved.instance, HandledWhole(serial, req).instance, s.reqs, s.pcs[i := moved.pc], n)
            && (moved.pc.WaitingFor? || moved.pc.Releasing?)
            && (moved.pc.WaitingFor? ==>
                  StillThere(moved.instance, req, moved.pc.id)
                  && HandledWhole(serial, req).response == Promised(moved.instance, req))
            && (moved.pc.Releasing? ==> HandledWhole(serial, req).response == moved.pc.response)
  {
    var inst, serial, req := InstanceAt(s, n), Serial(base, s.reqs, order, n), s.reqs[i];
    var moved := Advance(inst, req, Acting);
    assert HandlerLaw(base, inst, s.reqs, order, n, i, s.pcs[i]);
    OwingHere(base, s, n, order, i, moved.pc);
    ActOnVolume(inst, serial, req, n, OwedByOthers(s.reqs, s.pcs, i, n, req.volumeID, true),
                OwedByOthers(s.reqs, s.pcs, i, n, req.volumeID, false));
    CallsElsewhere(inst, req, Acting);
    WholeElsewhere(serial, req);
    LagsStep(inst, serial, moved.instance, HandledWhole(serial, req).instance, s.reqs, s.pcs, i, moved.pc, n);
  }

  lemma WaitStep(base: Instance, s: Sys, n: string, order: seq<nat>, i: nat)
    requires Here(base, s, n, order, i) && s.pcs[i].WaitingFor?
    ensures Law(base, Next(s, i), n, order)
  {
    var inst, serial, req, pc := InstanceAt(s, n), Serial(base, s.reqs, order, n), s.reqs[i], s.pcs[i];
    var moved := Advance(inst, req, pc);
    assert HandlerLaw(base, inst, s.reqs, order, n, i, pc);
    OwingHere(base, s, n, order, i, moved.pc);
    WaitOnVolume(inst, serial, req, pc.id, n, OwedByOthers(s.reqs, s.pcs, i, n, req.volumeID, true),
                 OwedByOthers(s.reqs, s.pcs, i, n, req.volumeID, false));
    CallsElsewhere(inst, req, pc);
    LagsStep(inst, serial, moved.instance, serial, s.reqs, s.pcs, i, moved.pc, n);
    WaitersStay(base, s, n, order, i);
    LawFromParts(base, s, n, order, i, order);
  }

  /** A step that makes no call: validation, the lock, a check passed, the unlock. */
  lemma QuietStep(base: Instance, s: Sys, n: string, order: seq<nat>, i: nat)
    requires Here(base, s, n, order, i) && !s.pcs[i].Acting? && !s.pcs[i].WaitingFor?
    requires Undecided(s.pcs[i]) ==> Undecided(Advance(InstanceAt(s, n), s.reqs[i], s.pcs[i]).pc)
    ensures Law(base, Next(s, i), n, order)
  {
    var inst, serial, req, pc := InstanceAt(s, n), Serial(base, s.reqs, order, n), s.reqs[i], s.pcs[i];
    var v := Stepped(s.lockEnabled, i, req, ViewOf(s, i));
    assert HandlerLaw(base, inst, s.reqs, order, n, i, pc);
    assert v.instance == inst && !v.pc.WaitingFor?;
    OwedSplits(s.reqs, s.pcs, i, v.pc, n, req.volumeID, true);
    OwedSplits(s.reqs, s.pcs, i, v.pc, n, req.volumeID, false);
    assert VolumeLags(inst.attachments, serial.attachments, req.volumeID,
                      Owed(s.reqs, s.pcs, n, req.volumeID, true), Owed(s.reqs, s.pcs, n, req.volumeID, false));
    LagsStep(inst, serial, inst, serial, s.reqs, s.pcs, i, v.pc, n);
    LawFromParts(base, s, n, order, i, order);
  }

  /** A refusal before the call; the whole handler is refused the same way, anywhere. */
  lemma RefusalIsWhole(inst: Instance, serial: Instance, req: Request, pc: Pc)
    requires Undecided(pc) && !pc.Acting? && Passed(req, pc) && Decided(Advance(inst, req, pc).pc)
    ensures Advance(inst, req, pc).instance == inst
    ensures HandledWhole(serial, req) == Handled(serial, Advance(inst, req, pc).pc.response)
  {
    if req.Publish? {
      assert HandledWhole(serial, req) == PublishHandled(serial, req);
    }
  }

  lemma RefuseStep(base: Instance, s: Sys, n: string, order: seq<nat>, i: nat)
    requires Here(base, s, n, order, i) && Undecided(s.pcs[i]) && !s.pcs[i].Acting?
    requires Decided(Advance(InstanceAt(s, n), s.reqs[i], s.pcs[i]).pc)
    ensures Law(base, Next(s, i), n, order + [i])
  {
    var inst, serial, req, pc := InstanceAt(s, n), Serial(base, s.reqs, order, n), s.reqs[i], s.pcs[i];
    var moved := Advance(inst, req, pc);
    assert HandlerLaw(base, inst, s.reqs, order, n, i, pc);
    RefusalIsWhole(inst, serial, req, pc);
    DecidingKeepsLaw(base, inst, s.reqs, order, n, i, moved.pc);
    OwingHere(base, s, n, order, i, moved.pc);
    LagsStep(inst, serial, inst, serial, s.reqs, s.pcs, i, moved.pc, n);
    LawFromParts(base, s, n, order, i, order + [i]);
  }

  // ---- Every schedule ------------------------------------------------------------------------------

  lemma LawStep(base: Instance, s: Sys, n: string, order: seq<nat>, i: nat)
    requires NoRivals(s.reqs) && Law(base, s, n, order) && Can(s, i)
    ensures Law(base, Next(s, i), n, order + DecidedNow(s, i, n))
  {
    NextFrame(s, i);
    assert order + [] == order;
    if NodeOf(s, i) != n {
      LawElsewhere(base, s, n, order, i);
    } else if s.pcs[i].Acting? {
      assert HandlerLaw(base, InstanceAt(s, n), s.reqs, order, n, i, s.pcs[i]);
      ActStep(base, s, n, order, i);
    } else if s.pcs[i].WaitingFor? {
      WaitStep(base, s, n, order, i);
    } else if DecidesNow(s, i, n) {
      RefuseStep(base, s, n, order, i);
    } else {
      QuietStep(base, s, n, order, i);
    }
  }

  lemma LawTurn(base: Instance, s: Sys, n: string, order: seq<nat>, i: nat)
    requires NoRivals(s.reqs) && Law(base, s, n, order)
    ensures Turn(s, i).reqs == s.reqs
    ensures Law(base, Turn(s, i), n, order + DecidedNow(s, i, n))
  {
    if Can(s, i) {
      LawStep(base, s, n, order, i);
      NextFrame(s, i);
    } else {
      assert order + [] == order;
    }
  }

  lemma DecisionsSplit(s: Sys, schedule: seq<nat>, n: string, order: seq<nat>)
    requires schedule != []
    ensures Run(s, schedule) == Run(Turn(s, schedule[0]), schedule[1..])
    ensures order + Decisions(s, schedule, n)
            == (order + DecidedNow(s, schedule[0], n))
               + Decisions(Turn(s, schedule[0]), schedule[1..], n)
  {
    var now, rest := DecidedNow(s, schedule[0], n), Decisions(Turn(s, schedule[0]), schedule[1..], n);
    assert Decisions(s, schedule, n) == now + rest;
    Associates(order, now, rest);
  }

  lemma Associates(a: seq<nat>, b: seq<nat>, c: seq<nat>)
    ensures a + (b + c) == (a + b) + c
  {
  }

  lemma {:induction false} LawRun(base: Instance, s: Sys, schedule: seq<nat>, n: string, order: seq<nat>)
    requires NoRivals(s.reqs) && Law(base, s, n, order)
    ensures Law(base, Run(s, schedule), n, order + Decisions(s, schedule, n))
    decreases |schedule|
  {
    if schedule == [] {
      assert order + [] == order;
    } else {
      var i := schedule[0];
      var now := order + DecidedNow(s, i, n);
      LawTurn(base, s, n, order, i);
      LawRun(base, Turn(s, i), schedule[1..], n, now);
      DecisionsSplit(s, schedule, n, order);
    }
  }

  /** An order explains what a system has done at one instance: every answer is a validation
      refusal or the serial run's, and an instance without busy handlers is as the serial
      run leaves it. */
  ghost predicate ExplainedBy(start: Sys, s: Sys, n: string, order: seq<nat>) {
    var base := InstanceAt(start, n);
    && |s.pcs| == |s.reqs| && ValidOrder(s.reqs, order, n) && Distinct(order)
    && (forall i: nat | i < |s.pcs| && NodeOf(s, i) == n && s.pcs[i].Done? ::
          if Objection(s.reqs[i]).Some? then s.pcs[i].answer == Refused(Objection(s.reqs[i]).value)
          else InTurn(base, s.reqs, order, n, i, s.pcs[i].answer))
    && ((forall i: nat | i < |s.pcs| && NodeOf(s, i) == n :: !Busy(s.pcs[i])) ==>
          InstanceAt(s, n) == Serial(base, s.reqs, order, n))
  }

  /** Without rivals every schedule is serialisable in the order of the decisions, with or
      without the lock, whatever faults the handlers meet. */
  lemma NoRivalsNoLockNeeded(start: Sys, schedule: seq<nat>, n: string)
    requires Initial(start) && NoRivals(start.reqs)
    ensures ExplainedBy(start, Run(start, schedule), n, Decisions(start, schedule, n))
  {
    var base := InstanceAt(start, n);
    assert Law(base, start, n, []);
    LawRun(base, start, schedule, n, []);
    var s, order := Run(start, schedule), Decisions(start, schedule, n);
    assert [] + order == order;
    forall i: nat | i < |s.pcs| && NodeOf(s, i) == n && s.pcs[i].Done?
      ensures if Objection(s.reqs[i]).Some? then s.pcs[i].answer == Refused(Objection(s.reqs[i]).value)
              else InTurn(base, s.reqs, order, n, i, s.pcs[i].answer)
    {
      assert HandlerLaw(base, InstanceAt(s, n), s.reqs, order, n, i, s.pcs[i]);
    }
    if forall i: nat | i < |s.pcs| && NodeOf(s, i) == n :: !Busy(s.pcs[i]) {
      NobodyLags(InstanceAt(s, n), Serial(base, s.reqs, order, n), s, n);
    }
  }

  lemma NobodyLags(inst: Instance, serial: Instance, s: Sys, n: string)
    requires |s.pcs| == |s.reqs| && Lags(inst, serial, s.reqs, s.pcs, n)
    requires forall i: nat | i < |s.pcs| && NodeOf(s, i) == n :: !Busy(s.pcs[i])
    ensures inst == serial
  {
    forall v
      ensures v in inst.attachments <==> v in serial.attachments
      ensures v in inst.attachments ==> inst.attachments[v] == serial.attachments[v]
    {
      assert !Owed(s.reqs, s.pcs, n, v, true) && !Owed(s.reqs, s.pcs, n, v, false);
      assert VolumeLags(inst.attachments, serial.attachments, v,
                        Owed(s.reqs, s.pcs, n, v, true), Owed(s.reqs, s.pcs, n, v, false));
    }
    assert inst.attachments == serial.attachments;
  }

  // ---- Real time -----------------------------------------------------------------------------------

  lemma {:induction false} DecisionsAppend(s: Sys, a: seq<nat>, b: seq<nat>, n: string)
    ensures Decisions(s, a + b, n) == Decisions(s, a, n) + Decisions(Run(s, a), b, n)
    decreases |a|
  {
    if a == [] {
      assert a + b == b;
      assert [] + Decisions(s, b, n) == Decisions(s, b, n);
    } else {
      assert (a + b)[1..] == a[1..] + b && (a + b)[0] == a[0];
      DecisionsAppend(Turn(s, a[0]), a[1..], b, n);
      Associates(DecidedNow(s, a[0], n), Decisions(Turn(s, a[0]), a[1..], n),
                 Decisions(Run(Turn(s, a[0]), a[1..]), b, n));
    }
  }

  /** The order of the decisions respects real time: a handler that had answered before
      another of its instance was past waiting for the lock comes first. */
  lemma DecisionsRespectRealTime(start: Sys, early: seq<nat>, late: seq<nat>, i: nat, j: nat)
      returns (before: nat, after: nat)
    requires Initial(start) && NoRivals(start.reqs)
    requires i < |start.reqs| && j < |start.reqs| && NodeOf(start, i) == NodeOf(start, j)
    requires Objection(start.reqs[i]).None? && |Run(start, early).pcs| == |start.reqs|
    requires Run(start, early).pcs[i].Done?
    requires Run(start, early).pcs[j].Idle? || Run(start, early).pcs[j].Waiting?
    requires j in Decisions(start, early + late, NodeOf(start, j))
    ensures var order := Decisions(start, early + late, NodeOf(start, i));
            before < after < |order| && order[before] == i && order[after] == j
  {
    var n := NodeOf(start, i);
    var first, order := Decisions(start, early, n), Decisions(start, early + late, n);
    DecidedExactly(start, early, n, i);
    DecidedExactly(start, early, n, j);
    DecisionsAppend(start, early, late, n);
    before :| before < |first| && first[before] == i;
    after :| after < |order| && order[after] == j;
    assert forall k: nat | k < |first| :: order[k] == first[k] && order[k] != j;
  }

  /** The decisions of an instance are those of its handlers that have decided. */
  lemma DecidedExactly(start: Sys, schedule: seq<nat>, n: string, i: nat)
    requires Initial(start) && NoRivals(start.reqs) && i < |start.reqs| && NodeOf(start, i) == n
    ensures Run(start, schedule).reqs == start.reqs && |Run(start, schedule).pcs| == |start.reqs|
    ensures i in Decisions(start, schedule, n)
            <==> Decided(Run(start, schedule).pcs[i]) && Objection(start.reqs[i]).None?
  {
    var base, s, order := InstanceAt(start, n), Run(start, schedule), Decisions(start, schedule, n);
    assert Law(base, start, n, []);
    LawRun(base, start, schedule, n, []);
    assert [] + order == order;
    RunKeepsRequests(start, schedule);
    assert HandlerLaw(base, InstanceAt(s, n), s.reqs, order, n, i, s.pcs[i]);
  }

  lemma {:induction false} RunKeepsRequests(s: Sys, schedule: seq<nat>)
    ensures Run(s, schedule).reqs == s.reqs
    decreases |schedule|
  {
    if schedule != [] {
      if Can(s, schedule[0]) {
        NextFrame(s, schedule[0]);
      }
      RunKeepsRequests(Turn(s, schedule[0]), schedule[1..]);
    }
  }
}
