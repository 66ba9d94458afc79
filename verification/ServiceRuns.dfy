/** The approval service whole: ledger, outbox and reservations over one database. Every run
    refines a run of ledger and outbox in which the append is one transaction, so what is
    committed through a reservation is what its request was decided to. */
module ServiceRuns {
  import opened Json
  import opened ApprovalPolicy
  import L = ApprovalLedger
  import LR = LedgerRuns
  import O = DeliveryOutbox
  import OR = OutboxRuns
  import P = Publication
  import J = JointRuns

  datatype Whole = Whole(ledger: L.Ledger, service: P.Service)

  function JointOf(w: Whole): J.Joint {
    J.Joint(w.ledger, w.service.outbox)
  }

  datatype Op = Storing(store: J.Op) | Publishing(publication: P.Op)

  /** Whether a reservation keeps this store transaction out. */
  predicate Guarded(w: Whole, op: J.Op) {
    match op
    case Voting(_, _, _, _, _, _, _) => false
    case Cancelling(id, _, _, _, _, _, _) => P.ReservedApproval(w.service, id)
    case Fencing(id, _) => P.ReservedApproval(w.service, id)
    case Ledgering(_) => false
    case Delivering(o) => P.Blocked(w.service, o)
  }

  /** The operations on reservations themselves; every store write goes through `Storing`. */
  predicate OnReservations(op: P.Op) {
    op.OpReserve? || op.OpCommit? || op.OpAbort? || op.OpReplace?
  }

  ghost function Step(w: Whole, op: Op): Whole
    requires L.BindingsOwned(w.ledger)
  {
    match op
    case Storing(s) =>
      if Guarded(w, s) then w
      else var j := J.Step(JointOf(w), s); Whole(j.ledger, w.service.(outbox := j.outbox))
    case Publishing(p) => if OnReservations(p) then w.(service := P.Step(w.service, p)) else w
  }

  ghost predicate Inv(w: Whole) {
    J.Inv(JointOf(w)) && P.Inv(w.service)
  }

  /** The ledger-and-outbox transactions a step stands for. */
  function Local(w: Whole, op: Op): seq<J.Op> {
    match op
    case Storing(s) => if Guarded(w, s) then [] else [s]
    case Publishing(p) =>
      if p.OpCommit? && P.Local(w.service, p) != []
      then [J.Delivering(O.OpAppend(p.reservation.key, p.reservation.approved, true, p.now))] else []
  }

  // ------------------------------------------------------------- one step

  lemma OutboxWriteKeeps(s: P.Service, o: O.Op)
    requires P.Inv(s) && !P.Blocked(s, o)
    ensures P.Inv(s.(outbox := O.After(s.outbox, O.Perform(s.outbox, o))))
  {
    hide P.Inv;
    hide O.Perform;
    P.WriteKeeps(s, o);
  }

  lemma StoringKeeps(w: Whole, op: J.Op)
    requires Inv(w) && !Guarded(w, op)
    ensures Inv(Step(w, Storing(op))) && J.Evolves(JointOf(w), JointOf(Step(w, Storing(op))))
  {
    var j := JointOf(w);
    J.StepGood(j, op);
    J.StepSplits(j, op);
    var moves := J.OutboxOf(j, op);
    assert moves != [] ==> !P.Blocked(w.service, moves[0]) by {
      hide J.Step;
      hide J.Inv;
      hide P.Inv;
    }
    hide J.OutboxOf;
    hide J.LedgerOf;
    hide J.Step;
    hide J.Inv;
    hide J.Evolves;
    hide P.Inv;
    hide O.Perform;
    if moves != [] {
      OutboxWriteKeeps(w.service, moves[0]);
    }
  }

  /** What an operation on reservations does to the outbox. */
  lemma PublishingMove(s: P.Service, p: P.Op)
    requires P.Inv(s) && OnReservations(p)
    ensures P.Inv(P.Step(s, p))
    ensures if p.OpCommit? && P.Local(s, p) != []
            then P.Step(s, p).outbox ==
                 O.After(s.outbox, O.Perform(s.outbox,
                                             O.OpAppend(p.reservation.key, p.reservation.approved, true, p.now)))
            else P.Step(s, p).outbox == s.outbox
  {
    P.StepKeeps(s, p);
    P.StepRefines(s, p);
    hide P.Inv;
    hide P.Step;
    hide O.Perform;
  }

  lemma PublishingKeeps(w: Whole, p: P.Op)
    requires Inv(w) && OnReservations(p)
    ensures Inv(Step(w, Publishing(p))) && J.Evolves(JointOf(w), JointOf(Step(w, Publishing(p))))
    ensures var local := Local(w, Publishing(p));
            && |local| <= 1
            && JointOf(Step(w, Publishing(p))) == if local == [] then JointOf(w) else J.Step(JointOf(w), local[0])
  {
    PublishingMove(w.service, p);
    J.SameGood(JointOf(w));
    hide P.Inv;
    hide P.Step;
    hide P.Local;
    hide J.Evolves;
    hide J.Inv;
    hide O.Perform;
    hide J.Step;
    JointIsOwned(JointOf(w));
    if p.OpCommit? && P.Local(w.service, p) != [] {
      var append := J.Delivering(O.OpAppend(p.reservation.key, p.reservation.approved, true, p.now));
      AppendStep(JointOf(w), append);
      J.StepGood(JointOf(w), append);
    }
  }

  lemma JointIsOwned(j: J.Joint)
    requires J.Inv(j)
    ensures L.BindingsOwned(j.ledger)
  {
  }

  lemma AppendStep(j: J.Joint, op: J.Op)
    requires L.BindingsOwned(j.ledger) && op.Delivering? && op.delivery.OpAppend?
    ensures J.Step(j, op) == j.(outbox := O.After(j.outbox, O.Perform(j.outbox, op.delivery)))
  {
  }

  lemma StepKeeps(w: Whole, op: Op)
    requires Inv(w)
    ensures Inv(Step(w, op)) && J.Evolves(JointOf(w), JointOf(Step(w, op)))
    ensures var local := Local(w, op);
            && |local| <= 1
            && JointOf(Step(w, op)) == if local == [] then JointOf(w) else J.Step(JointOf(w), local[0])
  {
    J.SameGood(JointOf(w));
    match op {
      case Storing(s) =>
        hide P.Inv;
        hide J.Evolves;
        hide J.Step;
        if !Guarded(w, s) {
          StoringKeeps(w, s);
        }
      case Publishing(p) =>
        hide P.Inv;
        hide P.Step;
        hide J.Evolves;
        hide J.Step;
        if OnReservations(p) {
          PublishingKeeps(w, p);
        }
    }
  }

  // -------------------------------------------------------------------- runs

  const EMPTY := Whole(L.EMPTY_LEDGER, P.EMPTY_SERVICE)

  lemma EmptyInv()
    ensures Inv(EMPTY)
  {
    J.EmptyInv();
    P.RunKeeps([]);
  }

  ghost function Run(ops: seq<Op>): (w: Whole)
    ensures Inv(w)
  {
    if ops == [] then
      EmptyInv(); EMPTY
    else
      StepKeeps(Run(ops[..|ops| - 1]), ops[|ops| - 1]);
      Step(Run(ops[..|ops| - 1]), ops[|ops| - 1])
  }

  lemma RunStep(ops: seq<Op>, i: nat)
    requires i < |ops|
    ensures Run(ops[..i + 1]) == Step(Run(ops[..i]), ops[i])
  {
    assert ops[..i + 1][..i] == ops[..i];
  }

  ghost function JointOps(ops: seq<Op>): seq<J.Op> {
    if ops == [] then [] else JointOps(ops[..|ops| - 1]) + Local(Run(ops[..|ops| - 1]), ops[|ops| - 1])
  }

  /** Every run of the whole service leaves exactly the ledger and outbox of a joint run in
      which each first commit is one atomic append and everything else is one transaction. */
  lemma {:induction false} WholeRefinesJoint(ops: seq<Op>)
    ensures JointOf(Run(ops)) == J.Run(JointOps(ops))
  {
    hide Step;
    hide Local;
    hide J.Step;
    hide Inv;
    if ops == [] {
    } else {
      var before, last := ops[..|ops| - 1], ops[|ops| - 1];
      WholeRefinesJoint(before);
      StepKeeps(Run(before), last);
      var local := Local(Run(before), last);
      if local == [] {
        assert JointOps(ops) == JointOps(before);
      } else {
        assert local == [local[0]];
        assert JointOps(ops)[..|JointOps(ops)| - 1] == JointOps(before);
      }
    }
  }

  lemma {:induction false} RunEvolves(ops: seq<Op>, i: nat, k: nat)
    requires i <= k <= |ops|
    ensures J.Evolves(JointOf(Run(ops[..i])), JointOf(Run(ops[..k])))
    decreases k
  {
    hide LR.Evolves;
    hide OR.Evolves;
    hide Run;
    hide Step;
    hide P.Inv;
    hide J.Inv;
    if i == k {
      J.SameGood(JointOf(Run(ops[..i])));
    } else {
      RunEvolves(ops, i, k - 1);
      RunStep(ops, k - 1);
      var a, b, c := JointOf(Run(ops[..i])), JointOf(Run(ops[..k - 1])), JointOf(Run(ops[..k]));
      StepKeeps(Run(ops[..k - 1]), ops[k - 1]);
      LR.EvolvesTransitive(a.ledger, b.ledger, c.ledger);
      OR.EvolvesTransitive(a.outbox, b.outbox, c.outbox);
    }
  }

  /** Over every run of the whole service, a delivery committed through a reservation is out,
      was reserved for the decision it carries, and was queued by the very call that decided
      its request that way. */
  lemma CommitsCarryDecisions(ops: seq<Op>, slot: P.Slot)
    requires slot in Run(ops).service.holds && Run(ops).service.holds[slot].committed
    ensures var s := Run(ops).service;
            && slot.key in s.outbox.rows
            && var row := s.outbox.rows[slot.key];
               && OR.Out(row.state)
               && row.approved == s.holds[slot].approved
               && exists i :: J.QueuedAt(JointOps(ops), i, row)
  {
    hide J.Inv;
    assert P.HoldOk(Run(ops).service, slot);
    WholeRefinesJoint(ops);
    hide Run;
    hide J.Run;
    hide J.QueuedAt;
    J.DeliveriesCarryDecisions(JointOps(ops), slot.key);
  }

  /** Once its request is fenced in the ledger, an approved delivery is committed on no path. */
  lemma FenceStopsCommits(ops: seq<Op>, i: nat, k: nat, key: O.Key)
    requires i <= k <= |ops| && key.approvalId in Run(ops[..i]).ledger.fences
    requires var o := Run(ops[..k]).service.outbox; key in o.rows && o.rows[key].approved && OR.Out(o.rows[key].state)
    ensures var o := Run(ops[..i]).service.outbox; key in o.rows && OR.Out(o.rows[key].state)
  {
    RunEvolves(ops, i, k);
    hide Run;
    hide LR.Evolves;
    hide P.Inv;
    assert JointOf(Run(ops[..i])).outbox.fences == Run(ops[..i]).ledger.fences;
    assert OR.FenceHeld(Run(ops[..i]).service.outbox, Run(ops[..k]).service.outbox, key);
  }
}
