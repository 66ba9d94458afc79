/** Ledger and outbox as the one database they are: a vote or cancellation decides a request
    and queues its delivery in one transaction, and one fence serves both tables. */
module JointRuns {
  import opened Json
  import opened ApprovalPolicy
  import L = ApprovalLedger
  import LR = LedgerRuns
  import LG = LedgerGuarantees
  import O = DeliveryOutbox
  import OR = OutboxRuns
  import DR = DeliveryRuns

  datatype Joint = Joint(ledger: L.Ledger, outbox: O.Outbox)

  /** Where a decision is to be delivered, as the deciding caller describes it. */
  datatype Target = Target(toolCallId: string, nonce: string, address: O.Address)

  datatype Op =
    | Voting(voteId: string, vote: L.Vote, reason: Option<string>, target: Option<Target>, auditId: string,
             decidedAt: int, now: int)
    | Cancelling(id: string, owner: L.Owner, decider: Option<string>, why: string, target: Option<Target>,
                 decidedAt: int, now: int)
    | Fencing(id: string, owner: L.Owner)
    | Ledgering(write: L.Op)
    | Delivering(delivery: O.Op)

  /** The request a delivery is built from is the one the caller means. */
  predicate Addresses(r: Request, t: Target) {
    && r.toolCallId == t.toolCallId
    && r.requestId == t.address.controlRunId
    && r.runId == t.address.controlRunId
    && r.sessionId == t.address.sessionId
  }

  function DeliveryFor(id: string, r: Request, t: Target, vote: Option<string>, audit: Option<string>,
                       decidedAt: int): O.Delivery {
    O.Delivery(O.Key(id, t.toolCallId, t.nonce), t.address, r.state.Approved?, decidedAt, vote, audit)
  }

  /** Queue the decision just written, or undo the whole transaction. */
  function Queued(j: Joint, decided: L.Ledger, id: string, target: Option<Target>, vote: Option<string>,
                  audit: Option<string>,
                  decidedAt: int, now: int): Joint
    requires id in decided.requests
  {
    match target
    case None => j.(ledger := decided)
    case Some(t) =>
      var r := decided.requests[id];
      if !Addresses(r, t) then j
      else
        match O.Insert(j.outbox, DeliveryFor(id, r, t, vote, audit, decidedAt), r.state, now)
        case Refused(_) => j
        case Committed(o) => Joint(decided, o)
  }

  function Vote(j: Joint, op: Op): Joint
    requires op.Voting?
  {
    match L.RecordVote(j.ledger, op.voteId, op.vote, op.reason)
    case Raised(_) => j
    case Done(s) =>
      if op.vote.decision !in {Approved, Denied} || s == j.ledger || op.vote.approvalId !in s.requests then j
      else Queued(j, s, op.vote.approvalId, op.target, Some(op.voteId), Some(op.auditId), op.decidedAt, op.now)
  }

  function Cancel(j: Joint, op: Op): Joint
    requires op.Cancelling?
  {
    match L.Cancel(j.ledger, op.id, op.owner, op.decider, op.why)
    case Raised(_) => j
    case Done(s) =>
      if s == j.ledger || op.id !in s.requests then j
      else Queued(j, s, op.id, op.target, None, None, op.decidedAt, op.now)
  }

  function Fence(j: Joint, id: string, owner: L.Owner): Joint {
    match L.Fence(j.ledger, id, owner)
    case Raised(_) => j
    case Done(s) => if s == j.ledger then j else Joint(s, O.After(j.outbox, O.FenceApproval(j.outbox, id)))
  }

  /** The operations that touch one table group only. */
  predicate LedgerOnly(op: L.Op) {
    !op.OpVote? && !op.OpCancel? && !op.OpFence?
  }

  predicate OutboxOnly(op: O.Op) {
    !op.OpInsert? && !op.OpFence?
  }

  ghost function Step(j: Joint, op: Op): Joint
    requires L.BindingsOwned(j.ledger)
  {
    match op
    case Voting(_, _, _, _, _, _, _) => Vote(j, op)
    case Cancelling(_, _, _, _, _, _, _) => Cancel(j, op)
    case Fencing(id, owner) => Fence(j, id, owner)
    case Ledgering(l) => if LedgerOnly(l) then j.(ledger := LG.Apply(j.ledger, l)) else j
    case Delivering(o) => if OutboxOnly(o) then j.(outbox := O.After(j.outbox, O.Perform(j.outbox, o))) else j
  }

  // --------------------------------------------------------------- invariant

  ghost predicate Inv(j: Joint) {
    LR.Inv(j.ledger) && L.BindingsOwned(j.ledger) && OR.Inv(j.outbox) && j.ledger.fences == j.outbox.fences
  }

  ghost predicate Evolves(j: Joint, j': Joint) {
    LR.Evolves(j.ledger, j'.ledger) && OR.Evolves(j.outbox, j'.outbox)
  }

  lemma SameGood(j: Joint)
    requires Inv(j)
    ensures Evolves(j, j)
  {
    hide LR.Evolves;
    hide OR.Evolves;
    LR.EvolvesReflexive(j.ledger);
    OR.EvolvesReflexive(j.outbox);
  }

  lemma QueuedGood(j: Joint, decided: L.Ledger, id: string, target: Option<Target>, vote: Option<string>,
                   audit: Option<string>,
                   decidedAt: int, now: int)
    requires Inv(j) && id in decided.requests
    requires LR.Good(j.ledger, decided) && decided.fences == j.ledger.fences
    ensures Inv(Queued(j, decided, id, target, vote, audit, decidedAt, now))
    ensures Evolves(j, Queued(j, decided, id, target, vote, audit, decidedAt, now))
  {
    hide LR.Evolves;
    hide OR.Evolves;
    hide O.Insert;
    SameGood(j);
    LG.OwnedByInv(decided);
    hide LR.Inv;
    hide OR.Inv;
    if target.Some? {
      var d := DeliveryFor(id, decided.requests[id], target.value, vote, audit, decidedAt);
      var op := O.OpInsert(d, decided.requests[id].state, now);
      OR.StepGood(j.outbox, op);
      InsertKeepsFences(j.outbox, d, decided.requests[id].state, now);
    }
  }

  lemma InsertKeepsFences(o: O.Outbox, d: O.Delivery, decided: ApprovalState, now: int)
    ensures O.Insert(o, d, decided, now).Committed? ==> O.Insert(o, d, decided, now).outbox.fences == o.fences
  {
  }

  lemma LedgerKeepsFences(s: L.Ledger, op: L.Op)
    requires L.BindingsOwned(s) && LedgerOnly(op)
    ensures LG.Apply(s, op).fences == s.fences
  {
    if L.Legal(s, op) {
      if op.OpReissue? {
        ReissueKeepsFences(s, op.request_, op.minted);
      } else {
        hide L.ReissueParked;
        hide L.VerifyAttempt;
        hide L.Colliding;
        hide L.ValidPayload;
      }
    }
  }

  lemma ReissueKeepsFences(s: L.Ledger, q: L.Reissue, m: L.Minted)
    requires L.BindingsOwned(s) && L.Unused(s, q, m)
    ensures L.ReissueParked(s, q, m).Done? ==> L.ReissueParked(s, q, m).value.ledger.fences == s.fences
  {
    hide L.ReadBinding;
    hide L.Colliding;
    hide L.RowRefuses;
    hide L.PublishedNonce;
    hide L.LinkedElsewhere;
  }

  lemma OutboxKeepsFences(o: O.Outbox, op: O.Op)
    requires OutboxOnly(op)
    ensures O.After(o, O.Perform(o, op)).fences == o.fences
  {
  }

  lemma VoteGood(j: Joint, op: Op)
    requires Inv(j) && op.Voting?
    ensures Inv(Step(j, op)) && Evolves(j, Step(j, op))
  {
    SameGood(j);
    if op.vote.decision in {Approved, Denied} {
      LR.VoteGood(j.ledger, op.voteId, op.vote, op.reason);
      var o := L.RecordVote(j.ledger, op.voteId, op.vote, op.reason);
      VoteKeepsFences(j.ledger, op.voteId, op.vote, op.reason);
      hide L.RecordVote;
      hide LR.Inv;
      hide LR.Evolves;
      if o.Done? && op.vote.approvalId in o.value.requests {
        QueuedGood(j, o.value, op.vote.approvalId, op.target, Some(op.voteId), Some(op.auditId), op.decidedAt, op.now);
      }
    }
  }

  lemma VoteKeepsFences(s: L.Ledger, voteId: string, vote: L.Vote, reason: Option<string>)
    ensures L.RecordVote(s, voteId, vote, reason).Done? ==>
              L.RecordVote(s, voteId, vote, reason).value.fences == s.fences
  {
  }

  lemma CancelGood(j: Joint, op: Op)
    requires Inv(j) && op.Cancelling?
    ensures Inv(Step(j, op)) && Evolves(j, Step(j, op))
  {
    SameGood(j);
    LR.CancelGood(j.ledger, op.id, op.owner, op.decider, op.why);
    var o := L.Cancel(j.ledger, op.id, op.owner, op.decider, op.why);
    assert o.Done? ==> o.value.fences == j.ledger.fences;
    hide L.Cancel;
    hide LR.Inv;
    hide LR.Evolves;
    if o.Done? && op.id in o.value.requests {
      QueuedGood(j, o.value, op.id, op.target, None, None, op.decidedAt, op.now);
    }
  }

  lemma FenceGood(j: Joint, id: string, owner: L.Owner)
    requires Inv(j)
    ensures Inv(Fence(j, id, owner)) && Evolves(j, Fence(j, id, owner))
  {
    SameGood(j);
    LR.FenceGood(j.ledger, id, owner);
    OR.StepGood(j.outbox, O.OpFence(id));
    LG.OwnedByInv(L.After(j.ledger, L.Fence(j.ledger, id, owner)));
    hide LR.Inv;
    hide OR.Inv;
    hide LR.Evolves;
    hide OR.Evolves;
  }

  lemma StepGood(j: Joint, op: Op)
    requires Inv(j)
    ensures Inv(Step(j, op)) && Evolves(j, Step(j, op))
  {
    if op.Voting? {
      VoteGood(j, op);
    } else if op.Cancelling? {
      CancelGood(j, op);
    } else if op.Fencing? {
      FenceGood(j, op.id, op.owner);
    } else {
      SameGood(j);
      hide LR.Inv;
      hide OR.Inv;
      hide LR.Evolves;
      hide OR.Evolves;
      hide O.Perform;
      if op.Ledgering? && LedgerOnly(op.write) {
        LG.StepGood(j.ledger, op.write);
        LG.OwnedByInv(LG.Apply(j.ledger, op.write));
        LedgerKeepsFences(j.ledger, op.write);
        hide LG.Apply;
      } else if op.Delivering? && OutboxOnly(op.delivery) {
        OR.StepGood(j.outbox, op.delivery);
        OutboxKeepsFences(j.outbox, op.delivery);
      }
    }
  }

  // -------------------------------------------------------------------- runs

  const EMPTY := Joint(L.EMPTY_LEDGER, O.EMPTY_OUTBOX)

  lemma EmptyInv()
    ensures Inv(EMPTY)
  {
    LG.EmptyInv();
  }

  ghost function Run(ops: seq<Op>): (j: Joint)
    ensures Inv(j)
  {
    if ops == [] then
      EmptyInv(); EMPTY
    else
      StepGood(Run(ops[..|ops| - 1]), ops[|ops| - 1]);
      Step(Run(ops[..|ops| - 1]), ops[|ops| - 1])
  }

  lemma RunStep(ops: seq<Op>, i: nat)
    requires i < |ops|
    ensures Run(ops[..i + 1]) == Step(Run(ops[..i]), ops[i])
  {
    assert ops[..i + 1][..i] == ops[..i];
  }

  lemma {:induction false} RunEvolves(ops: seq<Op>, i: nat, k: nat)
    requires i <= k <= |ops|
    ensures Evolves(Run(ops[..i]), Run(ops[..k]))
    decreases k
  {
    hide LR.Evolves;
    hide OR.Evolves;
    hide Run;
    hide Step;
    hide LR.Inv;
    hide OR.Inv;
    if i == k {
      SameGood(Run(ops[..i]));
    } else {
      RunEvolves(ops, i, k - 1);
      RunStep(ops, k - 1);
      var a, b, c := Run(ops[..i]), Run(ops[..k - 1]), Run(ops[..k]);
      StepGood(b, ops[k - 1]);
      LR.EvolvesTransitive(a.ledger, b.ledger, c.ledger);
      OR.EvolvesTransitive(a.outbox, b.outbox, c.outbox);
    }
  }

  /** One fence stops both: from the moment an approval is fenced, its grants are revoked and
      none is minted or found, and its approved delivery is out only if it already was. */
  lemma OneFenceStopsBoth(ops: seq<Op>, i: nat, k: nat, id: string)
    requires i <= k <= |ops| && id in Run(ops[..i]).ledger.fences
    ensures var s := Run(ops[..k]).ledger;
            && (forall g :: g in s.grants && s.grants[g].via == id ==> s.grants[g].revoked)
            && (forall g, grant: L.Grant :: grant.via == id ==> L.CreateGrant(s, g, grant) == L.Raised(L.Fenced))
    ensures forall key: O.Key :: key.approvalId == id ==> OR.FenceHeld(Run(ops[..i]).outbox, Run(ops[..k]).outbox, key)
  {
    RunEvolves(ops, i, k);
    hide Run;
    var s := Run(ops[..k]).ledger;
    forall g | g in s.grants && s.grants[g].via == id
      ensures s.grants[g].revoked
    {
      assert LR.GrantOk(s, s.grants[g]);
    }
  }

  // --------------------------------------------------- what a delivery carries

  /** This call decided an open request and queued this row for what it had just written. */
  predicate DecidesAndQueues(before: L.Ledger, after: L.Ledger, op: Op, row: O.Row) {
    var id := row.key.approvalId;
    && (op.Voting? || op.Cancelling?)
    && id in before.requests && !Terminal(before.requests[id].state)
    && id in after.requests
    && var r := after.requests[id];
       && r.state == (if row.approved then Approved else Denied)
       && r.decision == Some(r.state)
       && r.version == before.requests[id].version + 1
       && op.target == Some(Target(row.key.toolCallId, row.key.nonce, row.address))
       && r.toolCallId == row.key.toolCallId && r.sessionId == row.address.sessionId
       && r.requestId == r.runId == row.address.controlRunId
       && row.decidedAt == op.decidedAt
       && (if op.Voting? then
             && row.voteId == Some(op.voteId) && row.voteAuditId == Some(op.auditId)
             && op.voteId in after.votes && after.votes[op.voteId] == op.vote
             && op.vote.approvalId == id && op.vote.decision == r.state
           else row.voteId.None? && row.voteAuditId.None? && op.id == id)
  }

  ghost predicate QueuedAt(ops: seq<Op>, i: nat, row: O.Row) {
    i < |ops| && DecidesAndQueues(Run(ops[..i]).ledger, Run(ops[..i + 1]).ledger, ops[i], row)
  }

  /** The row a queueing transaction adds. */
  lemma QueuedAdds(j: Joint, decided: L.Ledger, id: string, target: Option<Target>, vote: Option<string>,
                   audit: Option<string>,
                   decidedAt: int, now: int, k: O.Key)
    requires id in decided.requests && k !in j.outbox.rows
    requires k in Queued(j, decided, id, target, vote, audit, decidedAt, now).outbox.rows
    ensures var j' := Queued(j, decided, id, target, vote, audit, decidedAt, now); var row := j'.outbox.rows[k];
            && j'.ledger == decided && k.approvalId == id && row.key == k
            && row.voteId == vote && row.voteAuditId == audit && row.decidedAt == decidedAt
            && target == Some(Target(k.toolCallId, k.nonce, row.address))
            && Addresses(decided.requests[id], target.value)
            && decided.requests[id].state == (if row.approved then Approved else Denied)
  {
  }

  lemma VoteQueues(j: Joint, op: Op, k: O.Key)
    requires op.Voting? && k !in j.outbox.rows && k in Vote(j, op).outbox.rows
    ensures DecidesAndQueues(j.ledger, Vote(j, op).ledger, op, Vote(j, op).outbox.rows[k])
  {
    hide Queued;
    var s := L.RecordVote(j.ledger, op.voteId, op.vote, op.reason).value;
    QueuedAdds(j, s, op.vote.approvalId, op.target, Some(op.voteId), Some(op.auditId), op.decidedAt, op.now, k);
    hide L.HasVote;
  }

  lemma CancelQueues(j: Joint, op: Op, k: O.Key)
    requires op.Cancelling? && k !in j.outbox.rows && k in Cancel(j, op).outbox.rows
    ensures DecidesAndQueues(j.ledger, Cancel(j, op).ledger, op, Cancel(j, op).outbox.rows[k])
  {
    hide Queued;
    var s := L.Cancel(j.ledger, op.id, op.owner, op.decider, op.why).value;
    QueuedAdds(j, s, op.id, op.target, None, None, op.decidedAt, op.now, k);
  }

  lemma KeysMatch(o: O.Outbox)
    requires OR.Inv(o)
    ensures forall k :: k in o.rows ==> o.rows[k].key == k
  {
    forall k | k in o.rows
      ensures o.rows[k].key == k
    {
      assert OR.RowOk(o, k);
    }
  }

  lemma DeliveringAddsNothing(o: O.Outbox, op: O.Op, k: O.Key)
    requires OutboxOnly(op) && k !in o.rows && forall l :: l in o.rows ==> o.rows[l].key == l
    ensures k !in O.After(o, O.Perform(o, op)).rows
  {
  }

  lemma StepQueues(j: Joint, op: Op, k: O.Key)
    requires Inv(j) && k !in j.outbox.rows && k in Step(j, op).outbox.rows
    ensures DecidesAndQueues(j.ledger, Step(j, op).ledger, op, Step(j, op).outbox.rows[k])
  {
    KeysMatch(j.outbox);
    hide Inv;
    hide LG.Apply;
    hide DecidesAndQueues;
    hide O.Perform;
    hide L.Fence;
    match op {
      case Voting(_, _, _, _, _, _, _) =>
        hide Vote;
        VoteQueues(j, op, k);
      case Cancelling(_, _, _, _, _, _, _) =>
        hide Cancel;
        CancelQueues(j, op, k);
      case Delivering(o) =>
        if OutboxOnly(o) {
          DeliveringAddsNothing(j.outbox, o, k);
        }
      case _ =>
    }
  }

  lemma QueuedAtPrefix(ops: seq<Op>, n: nat, i: nat, row: O.Row, row': O.Row)
    requires n <= |ops| && QueuedAt(ops[..n], i, row) && OR.RowEvolves(row, row')
    ensures QueuedAt(ops, i, row')
  {
    hide Run;
    assert ops[..n][..i] == ops[..i] && ops[..n][..i + 1] == ops[..i + 1] && ops[..n][i] == ops[i];
  }

  /** Every delivery row of a joint run was queued by the very call that decided its request,
      and carries the decision, call and run that request then had. */
  lemma {:induction false} DeliveriesCarryDecisions(ops: seq<Op>, k: O.Key)
    requires k in Run(ops).outbox.rows
    ensures exists i :: QueuedAt(ops, i, Run(ops).outbox.rows[k])
    decreases |ops|
  {
    if ops != [] {
      var n := |ops| - 1;
      assert ops[..|ops|] == ops;
      RunStep(ops, n);
      hide Run;
      hide Step;
      hide Inv;
      hide DecidesAndQueues;
      var before, row := Run(ops[..n]), Run(ops).outbox.rows[k];
      if k in before.outbox.rows {
        DeliveriesCarryDecisions(ops[..n], k);
        var i :| QueuedAt(ops[..n], i, before.outbox.rows[k]);
        RunEvolves(ops, n, |ops|);
        hide LR.Evolves;
        assert OR.RowEvolves(before.outbox.rows[k], row);
        QueuedAtPrefix(ops, n, i, before.outbox.rows[k], row);
      } else {
        StepQueues(before, ops[n], k);
        assert QueuedAt(ops, n, row);
      }
    }
  }

  // ------------------------------------------- a decision and its delivery

  /** The transaction's delivery can be queued: it is addressed to the request's own call, run
      and session, the clock goes on, and no delivery of the approval exists. */
  predicate Deliverable(j: Joint, id: string, r: Request, t: Target, d: O.Delivery, decided: ApprovalState, now: int) {
    && (r.toolCallId, r.sessionId) == (t.toolCallId, t.address.sessionId)
    && r.requestId == r.runId == t.address.controlRunId
    && d.key == O.Key(id, t.toolCallId, t.nonce)
    && DR.Ticks(j.outbox, now) && DR.Queueable(j.outbox, d, decided)
  }

  lemma InsertIff(o: O.Outbox, d: O.Delivery, decided: ApprovalState, now: int)
    requires OR.Inv(o)
    ensures O.Insert(o, d, decided, now).Committed? <==> DR.Ticks(o, now) && DR.Queueable(o, d, decided)
  {
    OR.NextPositive(o);
    hide OR.Inv;
    assert O.SameApproval(o, d.key.approvalId) <==>
             !(forall l :: l in o.rows ==> l.approvalId != d.key.approvalId);
    hide O.SameApproval;
  }

  /** What the open request and its delivery become, together or not at all. */
  ghost predicate DecidedWith(j: Joint, j': Joint, id: string, decided: ApprovalState, d: O.Delivery) {
    && id in j'.ledger.requests && j'.ledger.requests[id].state == decided
    && d.key in j'.outbox.rows
    && var row := j'.outbox.rows[d.key];
       && row.state.Pending? && row.approved == decided.Approved? && row.address == d.address
       && (forall k :: k in j.outbox.rows ==> k in j'.outbox.rows && j'.outbox.rows[k] == j.outbox.rows[k])
  }

  /** A first vote on an open request, with a target, takes effect if and only if its delivery
      can be queued; then request and delivery hold the decision, and otherwise neither does. */
  lemma VoteIsDelivered(ops: seq<Op>, op: Op)
    requires op.Voting? && op.vote.decision in {Approved, Denied} && op.target.Some?
    requires var s := Run(ops).ledger;
             && op.vote.approvalId in s.requests && !Terminal(s.requests[op.vote.approvalId].state)
             && op.voteId !in s.votes
    ensures var j := Run(ops); var id, t := op.vote.approvalId, op.target.value;
            var d := O.Delivery(O.Key(id, t.toolCallId, t.nonce), t.address, op.vote.decision.Approved?, op.decidedAt,
                                Some(op.voteId), Some(op.auditId));
            && (Step(j, op) != j <==> Deliverable(j, id, j.ledger.requests[id], t, d, op.vote.decision, op.now))
            && (Step(j, op) != j ==> DecidedWith(j, Step(j, op), id, op.vote.decision, d))
  {
    hide Run;
    var j, id, t := Run(ops), op.vote.approvalId, op.target.value;
    var d := O.Delivery(O.Key(id, t.toolCallId, t.nonce), t.address, op.vote.decision.Approved?, op.decidedAt,
                        Some(op.voteId), Some(op.auditId));
    LR.OpenHasNoVote(j.ledger, id);
    InsertIff(j.outbox, d, op.vote.decision, op.now);
    hide LR.Inv;
    hide OR.Inv;
    var r := L.RecordVote(j.ledger, op.voteId, op.vote, op.reason).value;
    assert r.requests[id].state == op.vote.decision && r != j.ledger;
    InsertedRow(j.outbox, d, op.vote.decision, op.now);
    hide O.Insert;
  }

  /** The owner cancelling a pending request, with a target, takes effect if and only if the
      denial can be queued. */
  lemma CancelIsDelivered(ops: seq<Op>, op: Op)
    requires op.Cancelling? && op.target.Some? && op.id in Run(ops).ledger.requests
    requires var r := Run(ops).ledger.requests[op.id]; L.Owns(op.owner, r) && r.state.PendingUser?
    ensures var j := Run(ops); var t := op.target.value;
            var d := O.Delivery(O.Key(op.id, t.toolCallId, t.nonce), t.address, false, op.decidedAt, None, None);
            && (Step(j, op) != j <==> Deliverable(j, op.id, j.ledger.requests[op.id], t, d, Denied, op.now))
            && (Step(j, op) != j ==> DecidedWith(j, Step(j, op), op.id, Denied, d))
  {
    hide Run;
    var j, t := Run(ops), op.target.value;
    var d := O.Delivery(O.Key(op.id, t.toolCallId, t.nonce), t.address, false, op.decidedAt, None, None);
    InsertIff(j.outbox, d, Denied, op.now);
    hide LR.Inv;
    hide OR.Inv;
    InsertedRow(j.outbox, d, Denied, op.now);
    hide O.Insert;
  }

  lemma InsertedRow(o: O.Outbox, d: O.Delivery, decided: ApprovalState, now: int)
    ensures O.Insert(o, d, decided, now).Committed? ==>
              var o' := O.Insert(o, d, decided, now).outbox;
              && d.key in o'.rows && o'.rows[d.key].state.Pending? && o'.rows[d.key].approved == d.approved
              && o'.rows[d.key].address == d.address
              && (forall k :: k in o.rows ==> k in o'.rows && o'.rows[k] == o.rows[k])
  {
    assert d.key in o.rows ==> O.SameApproval(o, d.key.approvalId);
  }

  // -------------------------------------------- each table group on its own

  /** The ledger transaction a joint one stands for; a decision that could not be queued is none. */
  ghost function LedgerOf(j: Joint, op: Op): seq<L.Op>
    requires L.BindingsOwned(j.ledger)
  {
    match op
    case Voting(voteId, vote, reason, _, _, _, _) =>
      if Step(j, op) == j then [] else [L.OpVote(voteId, vote, reason)]
    case Cancelling(id, owner, decider, why, _, _, _) =>
      if Step(j, op) == j then [] else [L.OpCancel(id, owner, decider, why)]
    case Fencing(id, owner) => [L.OpFence(id, owner)]
    case Ledgering(l) => if LedgerOnly(l) then [l] else []
    case Delivering(_) => []
  }

  /** The outbox transaction it stands for. */
  ghost function OutboxOf(j: Joint, op: Op): seq<O.Op>
    requires L.BindingsOwned(j.ledger)
  {
    match op
    case Voting(voteId, vote, _, target, auditId, decidedAt, now) =>
      if Step(j, op) == j || target.None? || vote.approvalId !in Step(j, op).ledger.requests then []
      else
        var r := Step(j, op).ledger.requests[vote.approvalId];
        [O.OpInsert(DeliveryFor(vote.approvalId, r, target.value, Some(voteId), Some(auditId), decidedAt), r.state,
                    now)]
    case Cancelling(id, _, _, _, target, decidedAt, now) =>
      if Step(j, op) == j || target.None? || id !in Step(j, op).ledger.requests then []
      else
        var r := Step(j, op).ledger.requests[id];
        [O.OpInsert(DeliveryFor(id, r, target.value, None, None, decidedAt), r.state, now)]
    case Fencing(id, _) => if Step(j, op) == j then [] else [O.OpFence(id)]
    case Ledgering(_) => []
    case Delivering(o) => if OutboxOnly(o) then [o] else []
  }

  ghost predicate LedgerMoves(s: L.Ledger, s': L.Ledger, moves: seq<L.Op>)
    requires L.BindingsOwned(s)
  {
    |moves| <= 1 && s' == if moves == [] then s else LG.Apply(s, moves[0])
  }

  ghost predicate OutboxMoves(o: O.Outbox, o': O.Outbox, moves: seq<O.Op>) {
    |moves| <= 1 && o' == if moves == [] then o else O.After(o, O.Perform(o, moves[0]))
  }

  lemma QueuedSplits(j: Joint, decided: L.Ledger, id: string, target: Option<Target>, vote: Option<string>,
                     audit: Option<string>, decidedAt: int, now: int)
    requires id in decided.requests
    ensures var j' := Queued(j, decided, id, target, vote, audit, decidedAt, now);
            j' != j ==>
              && j'.ledger == decided
              && j'.outbox ==
                 if target.None? then j.outbox
                 else
                   var r := decided.requests[id];
                   O.After(j.outbox, O.Insert(j.outbox, DeliveryFor(id, r, target.value, vote, audit, decidedAt),
                                              r.state, now))
  {
    hide O.Insert;
  }

  lemma VoteSplits(j: Joint, op: Op)
    requires L.BindingsOwned(j.ledger) && op.Voting?
    ensures LedgerMoves(j.ledger, Step(j, op).ledger, LedgerOf(j, op))
    ensures OutboxMoves(j.outbox, Step(j, op).outbox, OutboxOf(j, op))
  {
    hide L.RecordVote;
    hide Queued;
    hide O.Insert;
    var o := L.RecordVote(j.ledger, op.voteId, op.vote, op.reason);
    if Step(j, op) != j {
      QueuedSplits(j, o.value, op.vote.approvalId, op.target, Some(op.voteId), Some(op.auditId), op.decidedAt, op.now);
    }
  }

  lemma CancelSplits(j: Joint, op: Op)
    requires L.BindingsOwned(j.ledger) && op.Cancelling?
    ensures LedgerMoves(j.ledger, Step(j, op).ledger, LedgerOf(j, op))
    ensures OutboxMoves(j.outbox, Step(j, op).outbox, OutboxOf(j, op))
  {
    hide L.Cancel;
    hide Queued;
    hide O.Insert;
    var o := L.Cancel(j.ledger, op.id, op.owner, op.decider, op.why);
    if Step(j, op) != j {
      QueuedSplits(j, o.value, op.id, op.target, None, None, op.decidedAt, op.now);
    }
  }

  lemma StepSplits(j: Joint, op: Op)
    requires L.BindingsOwned(j.ledger)
    ensures LedgerMoves(j.ledger, Step(j, op).ledger, LedgerOf(j, op))
    ensures OutboxMoves(j.outbox, Step(j, op).outbox, OutboxOf(j, op))
  {
    if op.Voting? {
      VoteSplits(j, op);
    } else if op.Cancelling? {
      CancelSplits(j, op);
    } else if op.Fencing? {
      hide L.Owns;
      hide L.RevokedVia;
    } else {
      hide LG.Apply;
      hide O.Perform;
    }
  }

  ghost function LedgerOps(ops: seq<Op>): seq<L.Op> {
    if ops == [] then [] else LedgerOps(ops[..|ops| - 1]) + LedgerOf(Run(ops[..|ops| - 1]), ops[|ops| - 1])
  }

  ghost function OutboxOps(ops: seq<Op>): seq<O.Op> {
    if ops == [] then [] else OutboxOps(ops[..|ops| - 1]) + OutboxOf(Run(ops[..|ops| - 1]), ops[|ops| - 1])
  }

  /** Every joint run leaves the ledger of a ledger run and the outbox of an outbox run, so what
      is proved of every run of either holds of the one database. */
  lemma {:induction false} JointRefines(ops: seq<Op>)
    ensures Run(ops).ledger == LG.Run(LedgerOps(ops)) && Run(ops).outbox == O.Run(OutboxOps(ops))
  {
    hide Inv;
    if ops != [] {
      var before, last := ops[..|ops| - 1], ops[|ops| - 1];
      JointRefines(before);
      var j := Run(before);
      assert L.BindingsOwned(j.ledger) by { OwnedInRun(before); }
      StepSplits(j, last);
      hide Step;
      hide LedgerOf;
      hide OutboxOf;
      hide LG.Apply;
      hide O.Perform;
      LedgerExtends(LedgerOps(before), LedgerOf(j, last));
      OutboxExtends(OutboxOps(before), OutboxOf(j, last));
    }
  }

  lemma OwnedInRun(ops: seq<Op>)
    ensures L.BindingsOwned(Run(ops).ledger)
  {
  }

  lemma LedgerExtends(ops: seq<L.Op>, moves: seq<L.Op>)
    requires |moves| <= 1
    ensures LG.Run(ops + moves) == if moves == [] then LG.Run(ops) else LG.Apply(LG.Run(ops), moves[0])
  {
    hide LG.Apply;
    if moves == [] {
      assert ops + moves == ops;
    } else {
      assert (ops + moves)[..|ops|] == ops;
    }
  }

  lemma OutboxExtends(ops: seq<O.Op>, moves: seq<O.Op>)
    requires |moves| <= 1
    ensures O.Run(ops + moves) ==
            if moves == [] then O.Run(ops) else O.After(O.Run(ops), O.Perform(O.Run(ops), moves[0]))
  {
    hide O.Perform;
    if moves == [] {
      assert ops + moves == ops;
    } else {
      assert (ops + moves)[..|ops|] == ops;
    }
  }
}
