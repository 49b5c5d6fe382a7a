/** With the lock enabled, every schedule amounts, for each instance, to running its
    handlers one by one in the order in which they took its lock. */
module AttachSerial {
  import opened Common
  import opened Attachments
  import opened AttachProtocol

  // ---- The serial reference --------------------------------------------------------------

  predicate ValidOrder(reqs: seq<Request>, order: seq<nat>, n: string) {
    forall k | 0 <= k < |order| ::
      order[k] < |reqs| && reqs[order[k]].nodeID == n && Objection(reqs[order[k]]).None?
  }

  predicate Distinct(order: seq<nat>) {
    forall j, k | 0 <= j < k < |order| :: order[j] != order[k]
  }

  /** One instance after running the handlers of `order` one at a time. */
  function Serial(inst: Instance, reqs: seq<Request>, order: seq<nat>, n: string): Instance
    requires ValidOrder(reqs, order, n)
  {
    if order == [] then inst
    else
      var front, last := order[..|order| - 1], order[|order| - 1];
      HandledWhole(Serial(inst, reqs, front, n), reqs[last]).instance
  }

  /** What the k-th handler of `order` answers when they run one at a time. */
  function SerialResponse(inst: Instance, reqs: seq<Request>, order: seq<nat>, n: string, k: nat): Response
    requires ValidOrder(reqs, order, n) && k < |order|
  {
    HandledWhole(Serial(inst, reqs, order[..k], n), reqs[order[k]]).response
  }

  // ---- The invariant -----------------------------------------------------------------------

  /** One instance is explained by its order: when its lock is free it is what the serial
      run gives; when it is held, its holder is the last of the order and, left alone,
      would end as the serial run does. */
  ghost predicate Explained(base: Instance, reqs: seq<Request>, pcs: seq<Pc>, n: string,
                            inst: Instance, order: seq<nat>, holder: Option<nat>)
  {
    && ValidOrder(reqs, order, n) && Distinct(order)
    && (holder.None? ==> inst == Serial(base, reqs, order, n))
    && (holder.Some? ==>
          var i := holder.value;
          && i < |pcs| == |reqs| && Busy(pcs[i])
          && order != [] && order[|order| - 1] == i
          && Finish(inst, reqs[i], pcs[i])
             == HandledWhole(Serial(base, reqs, order[..|order| - 1], n), reqs[i]))
  }

  ghost predicate NodeInv(start: Sys, s: Sys, n: string) {
    Explained(InstanceAt(start, n), s.reqs, s.pcs, n, InstanceAt(s, n), OrderAt(s, n), HolderAt(s, n))
  }

  /** Handler i answered as its turn in the serial run does. */
  ghost predicate InTurn(base: Instance, reqs: seq<Request>, order: seq<nat>, n: string, i: nat, answer: Response) {
    && ValidOrder(reqs, order, n)
    && exists k: nat :: k < |order| && order[k] == i && answer == SerialResponse(base, reqs, order, n, k)
  }

  ghost predicate HandlerInv(base: Instance, reqs: seq<Request>, i: nat, pc: Pc,
                             order: seq<nat>, holder: Option<nat>)
    requires i < |reqs|
  {
    var objection := Objection(reqs[i]);
    && (i in order ==> objection.None?)
    && (pc.Idle? || pc.Waiting? ==> i !in order)
    && (pc.Waiting? || Busy(pc) ==> objection.None?)
    && (Busy(pc) ==> holder == Some(i))
    && (pc.Done? && objection.Some? ==> pc.answer == Refused(objection.value))
    && (pc.Done? && objection.None? ==> InTurn(base, reqs, order, reqs[i].nodeID, i, pc.answer))
  }

  ghost predicate ProcInv(start: Sys, s: Sys, i: nat)
    requires i < |s.pcs| == |s.reqs|
  {
    var n := NodeOf(s, i);
    HandlerInv(InstanceAt(start, n), s.reqs, i, s.pcs[i], OrderAt(s, n), HolderAt(s, n))
  }

  ghost predicate Inv(start: Sys, s: Sys) {
    && s.lockEnabled && |s.pcs| == |s.reqs| && s.reqs == start.reqs
    && (forall n :: NodeInv(start, s, n))
    && (forall i: nat | i < |s.pcs| :: ProcInv(start, s, i))
  }

  // ---- Its preservation, piece by piece ------------------------------------------------------

  /** Neither a longer order nor another holder disturbs a handler that is not busy. */
  lemma HandlerStays(base: Instance, reqs: seq<Request>, j: nat, pc: Pc, order: seq<nat>, holder: Option<nat>,
                     i: nat, order': seq<nat>, holder': Option<nat>)
    requires i < |reqs| && j < |reqs| && i != j
    requires HandlerInv(base, reqs, j, pc, order, holder)
    requires order' == order || order' == order + [i]
    requires Busy(pc) ==> holder' == holder
    requires ValidOrder(reqs, order', reqs[j].nodeID)
    ensures HandlerInv(base, reqs, j, pc, order', holder')
  {
    if pc.Done? && Objection(reqs[j]).None? {
      var n := reqs[j].nodeID;
      var k: nat :| k < |order| && order[k] == j && pc.answer == SerialResponse(base, reqs, order, n, k);
      assert order'[..k] == order[..k] && order'[k] == j;
      assert pc.answer == SerialResponse(base, reqs, order', n, k);
    }
  }

  lemma HandlerAcquires(base: Instance, reqs: seq<Request>, pcs: seq<Pc>, n: string, inst: Instance,
                        order: seq<nat>, i: nat, pcs': seq<Pc>)
    requires i < |reqs| == |pcs| && reqs[i].nodeID == n && Objection(reqs[i]).None? && i !in order
    requires Explained(base, reqs, pcs, n, inst, order, None)
    requires |pcs'| == |pcs| && pcs'[i] == FirstPc(reqs[i])
    ensures Explained(base, reqs, pcs', n, inst, order + [i], Some(i))
  {
    assert (order + [i])[..|order|] == order;
    FinishIsWhole(inst, reqs[i]);
  }

  lemma HandlerAdvances(base: Instance, reqs: seq<Request>, pcs: seq<Pc>, n: string, inst: Instance,
                        order: seq<nat>, i: nat, pcs': seq<Pc>)
    requires i < |reqs| == |pcs| == |pcs'|
    requires Explained(base, reqs, pcs, n, inst, order, Some(i)) && !pcs[i].Releasing?
    requires pcs'[i] == Advance(inst, reqs[i], pcs[i]).pc
    ensures Explained(base, reqs, pcs', n, Advance(inst, reqs[i], pcs[i]).instance, order, Some(i))
  {
    AdvanceDescends(inst, reqs[i], pcs[i]);
  }

  /** Releasing, the holder leaves the instance and its answer as the serial run has them. */
  lemma HandlerReleases(base: Instance, reqs: seq<Request>, pcs: seq<Pc>, n: string, inst: Instance,
                        order: seq<nat>, i: nat, pcs': seq<Pc>)
    requires i < |reqs| == |pcs|
    requires Explained(base, reqs, pcs, n, inst, order, Some(i)) && pcs[i].Releasing?
    ensures Explained(base, reqs, pcs', n, inst, order, None)
    ensures InTurn(base, reqs, order, n, i, pcs[i].response)
  {
    var k: nat := |order| - 1;
    assert order[k] == i && pcs[i].response == SerialResponse(base, reqs, order, n, k);
  }

  lemma OtherNode(start: Sys, s: Sys, t: Sys, i: nat, m: string)
    requires Inv(start, s) && i < |s.pcs| && Framed(s, t, i) && m != NodeOf(s, i)
    ensures NodeInv(start, t, m)
  {
    assert NodeInv(start, s, m);
  }

  lemma OwnNode(start: Sys, s: Sys, i: nat)
    requires Inv(start, s) && Can(s, i)
    ensures NodeInv(start, Next(s, i), NodeOf(s, i))
  {
    var t, n := Next(s, i), NodeOf(s, i);
    var base, inst, order := InstanceAt(start, n), InstanceAt(s, n), OrderAt(s, n);
    NextFrame(s, i);
    assert NodeInv(start, s, n) && ProcInv(start, s, i);
    if s.pcs[i].Idle? {
      assert HolderAt(s, n) != Some(i);
    } else if s.pcs[i].Waiting? {
      HandlerAcquires(base, s.reqs, s.pcs, n, inst, order, i, t.pcs);
    } else if s.pcs[i].Releasing? {
      HandlerReleases(base, s.reqs, s.pcs, n, inst, order, i, t.pcs);
    } else {
      HandlerAdvances(base, s.reqs, s.pcs, n, inst, order, i, t.pcs);
    }
  }

  lemma OwnHandler(start: Sys, s: Sys, i: nat)
    requires Inv(start, s) && Can(s, i)
    ensures ProcInv(start, Next(s, i), i)
  {
    var t, n := Next(s, i), NodeOf(s, i);
    var base, inst, order := InstanceAt(start, n), InstanceAt(s, n), OrderAt(s, n);
    NextFrame(s, i);
    assert NodeInv(start, s, n) && ProcInv(start, s, i);
    if s.pcs[i].Releasing? {
      HandlerReleases(base, s.reqs, s.pcs, n, inst, order, i, t.pcs);
    } else if !s.pcs[i].Idle? && !s.pcs[i].Waiting? {
      AdvanceDescends(inst, s.reqs[i], s.pcs[i]);
    }
  }

  lemma OtherHandler(start: Sys, s: Sys, i: nat, j: nat)
    requires Inv(start, s) && Can(s, i) && j < |s.pcs| && j != i
    ensures ProcInv(start, Next(s, i), j)
  {
    var t, n := Next(s, i), NodeOf(s, j);
    NextFrame(s, i);
    assert ProcInv(start, s, j) && ProcInv(start, s, i);
    if n == NodeOf(s, i) {
      OwnNode(start, s, i);
      assert NodeInv(start, s, n);
    } else {
      OtherNode(start, s, t, i, n);
    }
    HandlerStays(InstanceAt(start, n), s.reqs, j, s.pcs[j], OrderAt(s, n), HolderAt(s, n),
                 i, OrderAt(t, n), HolderAt(t, n));
  }

  /** Every step keeps the invariant. */
  lemma StepInv(start: Sys, s: Sys, i: nat)
    requires Inv(start, s) && Can(s, i)
    ensures Inv(start, Next(s, i))
  {
    var t := Next(s, i);
    NextFrame(s, i);
    forall n
      ensures NodeInv(start, t, n)
    {
      if n == NodeOf(s, i) { OwnNode(start, s, i); } else { OtherNode(start, s, t, i, n); }
    }
    forall j: nat | j < |t.pcs|
      ensures ProcInv(start, t, j)
    {
      if j == i { OwnHandler(start, s, i); } else { OtherHandler(start, s, i, j); }
    }
  }

  lemma {:induction false} RunInv(start: Sys, s: Sys, schedule: seq<nat>)
    requires Inv(start, s)
    ensures Inv(start, Run(s, schedule))
    decreases |schedule|
  {
    if schedule != [] {
      if Can(s, schedule[0]) {
        StepInv(start, s, schedule[0]);
      }
      RunInv(start, Turn(s, schedule[0]), schedule[1..]);
    }
  }

  lemma Reachable(start: Sys, schedule: seq<nat>)
    requires Initial(start) && start.lockEnabled
    ensures Inv(start, Run(start, schedule))
  {
    assert Inv(start, start);
    RunInv(start, start, schedule);
  }

  // ---- What follows for every schedule --------------------------------------------------------

  /** Serialisability. Whatever the schedule, the lock-acquisition order explains
      everything: an instance whose lock is free holds what the serial run leaves there,
      and each answer is a validation refusal or the serial run's. */
  lemma Serialisable(start: Sys, schedule: seq<nat>)
    requires Initial(start) && start.lockEnabled
    ensures var s := Run(start, schedule);
            && s.reqs == start.reqs && |s.pcs| == |start.pcs|
            && (forall n :: ValidOrder(s.reqs, OrderAt(s, n), n) && Distinct(OrderAt(s, n)))
            && (forall n | n !in s.held ::
                  InstanceAt(s, n) == Serial(InstanceAt(start, n), s.reqs, OrderAt(s, n), n))
            && (forall i: nat | i < |s.pcs| && s.pcs[i].Done? ::
                  if Objection(s.reqs[i]).Some? then s.pcs[i].answer == Refused(Objection(s.reqs[i]).value)
                  else InTurn(InstanceAt(start, NodeOf(s, i)), s.reqs, OrderAt(s, NodeOf(s, i)), NodeOf(s, i),
                              i, s.pcs[i].answer))
  {
    Reachable(start, schedule);
    var s := Run(start, schedule);
    forall n
      ensures ValidOrder(s.reqs, OrderAt(s, n), n) && Distinct(OrderAt(s, n))
      ensures n !in s.held ==> InstanceAt(s, n) == Serial(InstanceAt(start, n), s.reqs, OrderAt(s, n), n)
    {
      assert NodeInv(start, s, n);
    }
    forall i: nat | i < |s.pcs| && s.pcs[i].Done?
      ensures if Objection(s.reqs[i]).Some? then s.pcs[i].answer == Refused(Objection(s.reqs[i]).value)
              else InTurn(InstanceAt(start, NodeOf(s, i)), s.reqs, OrderAt(s, NodeOf(s, i)), NodeOf(s, i),
                          i, s.pcs[i].answer)
    {
      assert ProcInv(start, s, i);
    }
  }

  /** Mutual exclusion: between lock and unlock there is at most one handler per instance. */
  lemma MutualExclusion(start: Sys, schedule: seq<nat>, i: nat, j: nat)
    requires Initial(start) && start.lockEnabled && i < |start.pcs| && j < |start.pcs|
    requires |Run(start, schedule).pcs| == |Run(start, schedule).reqs| == |start.pcs|
    requires Busy(Run(start, schedule).pcs[i]) && Busy(Run(start, schedule).pcs[j])
    requires NodeOf(Run(start, schedule), i) == NodeOf(Run(start, schedule), j)
    ensures i == j
  {
    Reachable(start, schedule);
    var s := Run(start, schedule);
    assert ProcInv(start, s, i) && ProcInv(start, s, j);
  }

  /** A handler is kept from moving only by a busy handler of its own instance, which
      itself can move. */
  lemma BlockedBySameNodeOnly(start: Sys, schedule: seq<nat>, i: nat) returns (holder: nat)
    requires Initial(start) && start.lockEnabled && i < |Run(start, schedule).pcs|
    requires !Run(start, schedule).pcs[i].Done? && !Can(Run(start, schedule), i)
    ensures var s := Run(start, schedule);
            && s.pcs[i].Waiting?
            && holder != i && Can(s, holder) && Busy(s.pcs[holder])
            && i < |s.reqs| && NodeOf(s, holder) == NodeOf(s, i)
  {
    Reachable(start, schedule);
    var s := Run(start, schedule);
    assert ProcInv(start, s, i);
    assert NodeInv(start, s, NodeOf(s, i));
    holder := s.held[NodeOf(s, i)];
    assert ProcInv(start, s, holder);
  }

  /** The order of one instance lists exactly its handlers that passed validation. */
  ghost predicate Enumerates(s: Sys, n: string) {
    && Distinct(OrderAt(s, n))
    && forall i: nat :: i in OrderAt(s, n) <==> i < |s.reqs| && NodeOf(s, i) == n && Objection(s.reqs[i]).None?
  }

  /** Once every handler has answered no lock is held, and each order is
      complete, without repetition. */
  lemma AllReleased(start: Sys, schedule: seq<nat>)
    requires Initial(start) && start.lockEnabled && AllDone(Run(start, schedule))
    ensures var s := Run(start, schedule);
            && s.held == map[]
            && forall n :: Enumerates(s, n)
  {
    Reachable(start, schedule);
    var s := Run(start, schedule);
    forall n
      ensures n !in s.held
    {
      assert NodeInv(start, s, n);
    }
    forall n
      ensures Enumerates(s, n)
    {
      assert NodeInv(start, s, n);
      forall i: nat
        ensures i in OrderAt(s, n) <==> i < |s.reqs| && NodeOf(s, i) == n && Objection(s.reqs[i]).None?
      {
        OrderMembers(start, s, n, i);
      }
    }
  }

  lemma OrderMembers(start: Sys, s: Sys, n: string, i: nat)
    requires Inv(start, s) && AllDone(s)
    ensures i in OrderAt(s, n) <==> i < |s.reqs| && NodeOf(s, i) == n && Objection(s.reqs[i]).None?
  {
    var order := OrderAt(s, n);
    assert NodeInv(start, s, n);
    if i in order {
      var k: nat :| k < |order| && order[k] == i;
    } else if i < |s.reqs| {
      assert ProcInv(start, s, i);
    }
  }

  /** No deadlock: while some handler has not answered, some handler can move. */
  lemma SomeoneCanMove(start: Sys, schedule: seq<nat>) returns (i: nat)
    requires Initial(start) && start.lockEnabled && !AllDone(Run(start, schedule))
    ensures Can(Run(start, schedule), i)
  {
    var s := Run(start, schedule);
    i :| i < |s.pcs| && !s.pcs[i].Done?;
    if !Can(s, i) {
      i := BlockedBySameNodeOnly(start, schedule, i);
    }
  }

  /** From wherever a schedule has led, the handlers can all be brought to an answer. */
  lemma {:induction false} Completes(start: Sys, schedule: seq<nat>) returns (rest: seq<nat>)
    requires Initial(start) && start.lockEnabled
    ensures AllDone(Run(start, schedule + rest))
    ensures |rest| <= TotalRank(Run(start, schedule).pcs)
    decreases TotalRank(Run(start, schedule).pcs)
  {
    var s := Run(start, schedule);
    if AllDone(s) {
      assert schedule + [] == schedule;
      return [];
    }
    var i := SomeoneCanMove(start, schedule);
    StepsDescend(s, i);
    RunAppend(start, schedule, [i]);
    assert Run(s, [i]) == Next(s, i) by {
      assert [i][1..] == [];
      assert Run(Turn(s, i), []) == Turn(s, i);
    }
    var more := Completes(start, schedule + [i]);
    rest := [i] + more;
    assert schedule + rest == (schedule + [i]) + more;
  }

  // ---- Real time -----------------------------------------------------------------------------

  lemma {:induction false} OrdersGrow(s: Sys, schedule: seq<nat>, n: string)
    ensures OrderAt(s, n) <= OrderAt(Run(s, schedule), n)
    decreases |schedule|
  {
    if schedule != [] {
      if Can(s, schedule[0]) {
        NextFrame(s, schedule[0]);
      }
      OrdersGrow(Turn(s, schedule[0]), schedule[1..], n);
    }
  }

  /** The order respects real time: a handler that had answered before another of its
      instance asked for the lock comes first. */
  lemma OrderRespectsRealTime(start: Sys, early: seq<nat>, late: seq<nat>, i: nat, j: nat)
      returns (before: nat, after: nat)
    requires Initial(start) && start.lockEnabled
    requires i < |start.reqs| && j < |start.reqs| && NodeOf(start, i) == NodeOf(start, j)
    requires Objection(start.reqs[i]).None?
    requires |Run(start, early).pcs| == |start.reqs|
    requires Run(start, early).pcs[i].Done?
    requires Run(start, early).pcs[j].Idle? || Run(start, early).pcs[j].Waiting?
    requires j in OrderAt(Run(start, early + late), NodeOf(start, j))
    ensures var order := OrderAt(Run(start, early + late), NodeOf(start, i));
            before < after < |order| && order[before] == i && order[after] == j
  {
    Reachable(start, early);
    RunAppend(start, early, late);
    var s, n := Run(start, early), NodeOf(start, i);
    OrdersGrow(s, late, n);
    var order := OrderAt(Run(s, late), n);
    assert ProcInv(start, s, i) && ProcInv(start, s, j);
    before :| before < |OrderAt(s, n)| && OrderAt(s, n)[before] == i;
    after :| after < |order| && order[after] == j;
    assert forall k: nat | k < |OrderAt(s, n)| :: order[k] == OrderAt(s, n)[k] && order[k] != j;
  }
}
