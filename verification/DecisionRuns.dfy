/** Whose words a request holds: the call of the run that wrote its decision (state, version,
    author, verdict and reason) and the one that wrote its description, and that an entitled
    call is always heard. */
module DecisionRuns {
  import opened Json
  import opened ApprovalPolicy
  import opened ApprovalLedger
  import opened LedgerRuns
  import opened LedgerGuarantees
  import opened LedgerProvenance
  import opened Reissues
  import opened OriginRuns

  type Ruling = (ApprovalState, int, Option<string>, Option<ApprovalState>, Option<string>)

  /** What this call writes into the request, by its own arguments. */
  predicate Writes(s: Ledger, op: Op, id: string, v: Ruling) {
    match op
    case OpCreate(i, r) => i == id && id !in s.requests && v == (r.state, r.version, r.deciderId, r.decision, r.reason)
    case OpTransition(i, state, expected, decider, decision, reason) =>
      && i == id && id in s.requests
      && var r := s.requests[id];
         && (expected.None? || expected.value == r.version) && (Terminal(r.state) ==> Terminal(state))
         && v == (state, r.version + 1, if decider.None? then r.deciderId else decider,
                  if decision.None? && Terminal(state) then Some(state) else decision,
                  if reason.None? then r.reason else reason)
    case OpVote(_, vote, reason) =>
      && vote.approvalId == id && id in s.requests && !Terminal(s.requests[id].state)
      && v == (vote.decision, s.requests[id].version + 1, Some(vote.deciderId), Some(vote.decision), reason)
    case OpCancel(i, owner, decider, why) =>
      && i == id && id in s.requests && OwnedBy(owner, s.requests[id]) && s.requests[id].state.PendingUser?
      && v == (Denied, s.requests[id].version + 1, if decider.None? then s.requests[id].deciderId else decider,
               Some(Denied), Some(why))
    case OpAbort(i, owner, why) =>
      && i == id && id in s.requests && OwnedBy(owner, s.requests[id]) && !Terminal(s.requests[id].state)
      && v == (Denied, s.requests[id].version + 1, s.requests[id].deciderId, Some(Denied), Some(why))
    case OpSupersede(predecessor, successor, _) =>
      && predecessor == id && id in s.requests && !Terminal(s.requests[id].state)
      && v == (Expired, s.requests[id].version + 1, s.requests[id].deciderId, Some(Expired),
               Some("superseded by " + successor))
    case OpPark(p, _) =>
      && id in s.requests && id != p.approvalId && s.requests[id].state in {Created, PendingUser, Approved}
      && v == (Expired, s.requests[id].version + 1, s.requests[id].deciderId, Some(Expired),
               Some(REISSUED_AS + p.approvalId))
    case OpReissue(q, m) =>
      if id == m.approvalId then v == (PendingUser, 1, None, None, None)
      else
        && id in s.requests && s.requests[id].state in {Created, PendingUser, Approved}
        && v == (Expired, s.requests[id].version + 1, s.requests[id].deciderId, Some(Expired),
                 Some(REISSUED_AS + m.approvalId))
    case _ => false
  }

  lemma ParkWrites(s: Ledger, p: Payload, generation: Option<string>, id: string)
    requires BindingsOwned(s) && Park(s, p, generation).Done? && id in Park(s, p, generation).value.ledger.requests
    ensures id in s.requests
    ensures var v := Verdict(Park(s, p, generation).value.ledger.requests[id]);
            v == Verdict(s.requests[id]) || Writes(s, OpPark(p, generation), id, v)
  {
    hide Colliding;
    hide OtherGeneration;
    hide PublishedNonce;
  }

  lemma ReissueWrites(s: Ledger, q: Reissue, m: Minted, id: string)
    requires Inv(s) && BindingsOwned(s) && Unused(s, q, m) && ReissueParked(s, q, m).Done?
    requires id in ReissueParked(s, q, m).value.ledger.requests
    ensures var v := Verdict(ReissueParked(s, q, m).value.ledger.requests[id]);
            (id in s.requests && v == Verdict(s.requests[id])) || Writes(s, OpReissue(q, m), id, v)
  {
    hide ReissueParked;
    if ReissueParked(s, q, m).value.created {
      var b := CreatedFrom(s, q, m);
      hide Inv;
      hide FromOtherGeneration;
      hide Linked;
      hide ValidPayload;
    } else {
      NotCreatedIsUnchanged(s, q, m);
    }
  }

  /** The decision is left alone, or written as the call's own arguments say. */
  ghost predicate AloneOrWritten(s: Ledger, s': Ledger, op: Op, id: string)
    requires id in s'.requests
  {
    var v := Verdict(s'.requests[id]);
    (id in s.requests && v == Verdict(s.requests[id])) || Writes(s, op, id, v)
  }

  lemma ParkStepWrites(s: Ledger, op: Op, id: string)
    requires BindingsOwned(s) && op.OpPark? && id in Step(s, op).requests
    ensures AloneOrWritten(s, Step(s, op), op, id)
  {
    hide Park;
    hide Writes;
    if Park(s, op.payload, op.generation).Done? {
      ParkWrites(s, op.payload, op.generation, id);
    }
  }

  lemma ReissueStepWrites(s: Ledger, op: Op, id: string)
    requires Inv(s) && BindingsOwned(s) && op.OpReissue? && Legal(s, op) && id in Step(s, op).requests
    ensures AloneOrWritten(s, Step(s, op), op, id)
  {
    hide ReissueParked;
    hide Writes;
    hide Inv;
    if ReissueParked(s, op.request_, op.minted).Done? {
      ReissueWrites(s, op.request_, op.minted, id);
    }
  }

  /** One step leaves a decision alone or writes it as its own arguments say. */
  lemma StepWrites(s: Ledger, op: Op, id: string)
    requires Inv(s) && BindingsOwned(s) && id in Apply(s, op).requests
    ensures AloneOrWritten(s, Apply(s, op), op, id)
  {
    hide Step;
    hide Inv;
    if Legal(s, op) {
      hide AloneOrWritten;
      if op.OpPark? {
        ParkStepWrites(s, op, id);
      } else if op.OpReissue? {
        ReissueStepWrites(s, op, id);
      } else if op.OpTransition? || op.OpVote? || op.OpCancel? {
        TransitionStepWrites(s, op, id);
      } else if Deciding(op) {
        OtherStepWrites(s, op, id);
      } else {
        QuietStepWrites(s, op, id);
      }
    }
  }

  predicate Deciding(op: Op) {
    op.OpCreate? || op.OpTransition? || op.OpVote? || op.OpCancel? || op.OpAbort? || op.OpSupersede?
  }

  lemma TransitionStepWrites(s: Ledger, op: Op, id: string)
    requires BindingsOwned(s) && Legal(s, op) && (op.OpTransition? || op.OpVote? || op.OpCancel?)
    requires id in Step(s, op).requests
    ensures AloneOrWritten(s, Step(s, op), op, id)
  {
    hide HasVote;
    hide SameVote;
  }

  lemma OtherStepWrites(s: Ledger, op: Op, id: string)
    requires BindingsOwned(s) && Legal(s, op) && (op.OpCreate? || op.OpAbort? || op.OpSupersede?)
    requires id in Step(s, op).requests
    ensures AloneOrWritten(s, Step(s, op), op, id)
  {
    hide ValidRequest;
    hide RowsForApproval;
    hide RevokedVia;
  }

  lemma QuietStepWrites(s: Ledger, op: Op, id: string)
    requires BindingsOwned(s) && Legal(s, op) && !Deciding(op) && !op.OpPark? && !op.OpReissue?
    requires id in Step(s, op).requests
    ensures AloneOrWritten(s, Step(s, op), op, id)
  {
    hide Writes;
    hide Colliding;
    hide VerifyAttempt;
    hide ValidRequest;
    hide RowsForCall;
    hide RowsForApproval;
    hide LinkedElsewhere;
    hide ValidPayload;
  }

  /** The i-th call wrote the request's present decision. */
  ghost predicate WrittenAt(ops: seq<Op>, i: nat, id: string, v: Ruling) {
    i < |ops| && Writes(Run(ops[..i]), ops[i], id, v)
  }

  /** Every decision of a reachable ledger, its state, version, author, verdict and reason, is
      exactly what some call of the run, entitled to write it, wrote. */
  lemma {:induction false} DecisionsWereWritten(ops: seq<Op>, id: string)
    requires id in Run(ops).requests
    ensures exists i: nat :: WrittenAt(ops, i, id, Verdict(Run(ops).requests[id]))
    decreases |ops|
  {
    if ops != [] {
      var n := |ops| - 1;
      assert ops[..|ops|] == ops;
      RunStep(ops, n);
      hide Run;
      hide Apply;
      hide Writes;
      var s, v := Run(ops[..n]), Verdict(Run(ops).requests[id]);
      StepWrites(s, ops[n], id);
      hide Inv;
      hide Verdict;
      if Writes(s, ops[n], id, v) {
        assert WrittenAt(ops, n, id, v);
      } else {
        DecisionsWereWritten(ops[..n], id);
        var i: nat :| WrittenAt(ops[..n], i, id, v);
        assert ops[..n][..i] == ops[..i] && ops[..n][i] == ops[i];
        assert WrittenAt(ops, i, id, v);
      }
    }
  }

  // --------------------------------------------------- entitled calls are heard

  /** A call that may write this decision: a transition that does not reopen it, the first vote
      of a fresh id, the owner cancelling or aborting it, a plan that replaces it unclaimed. */
  predicate Entitled(s: Ledger, op: Op, id: string)
    requires id in s.requests
  {
    var r := s.requests[id];
    match op
    case OpTransition(i, state, expected, _, _, _) =>
      i == id && (expected.None? || expected.value == r.version) && (Terminal(r.state) ==> Terminal(state))
    case OpVote(voteId, vote, _) =>
      vote.approvalId == id && !Terminal(r.state) && vote.decision in {Approved, Denied} && voteId !in s.votes
    case OpCancel(i, owner, _, _) => i == id && OwnedBy(owner, r) && r.state.PendingUser?
    case OpAbort(i, owner, _) => i == id && OwnedBy(owner, r) && !Terminal(r.state)
    case OpSupersede(predecessor, _, pending) =>
      && predecessor == id && !Terminal(r.state)
      && (pending ==> forall b :: b in s.bindings && b.approvalId == id ==> b.execution.Unclaimed?)
    case _ => false
  }

  /** The request holds what the call carried, and every other request is as it was. */
  ghost predicate Heard(s: Ledger, s': Ledger, op: Op, id: string) {
    && id in s'.requests && Writes(s, op, id, Verdict(s'.requests[id]))
    && forall other :: other in s.requests && other != id ==>
         other in s'.requests && s'.requests[other] == s.requests[other]
  }

  lemma VoteIsHeard(s: Ledger, op: Op, id: string)
    requires Inv(s) && BindingsOwned(s) && op.OpVote? && id in s.requests && Entitled(s, op, id)
    ensures Heard(s, Apply(s, op), op, id)
  {
    OpenHasNoVote(s, id);
    hide Inv;
  }

  lemma OtherIsHeard(s: Ledger, op: Op, id: string)
    requires BindingsOwned(s) && !op.OpVote? && id in s.requests && Entitled(s, op, id)
    ensures Heard(s, Apply(s, op), op, id)
  {
    hide Park;
    hide ReissueParked;
    hide Claim;
    hide Complete;
    hide LinkTurn;
    hide RecordBinding;
    if op.OpSupersede? {
      assert op.planPending ==> forall b :: b in RowsForApproval(s, id) ==> b.execution.Unclaimed?;
    }
  }

  /** In any reachable ledger an entitled call is heard. */
  lemma EntitledIsHeard(ops: seq<Op>, op: Op, id: string)
    requires id in Run(ops).requests && Entitled(Run(ops), op, id)
    ensures Heard(Run(ops), Run(ops + [op]), op, id)
  {
    assert (ops + [op])[..|ops|] == ops && (ops + [op])[..|ops| + 1] == ops + [op];
    RunStep(ops + [op], |ops|);
    hide Run;
    hide Heard;
    hide Apply;
    hide Entitled;
    if op.OpVote? {
      VoteIsHeard(Run(ops), op, id);
    } else {
      OtherIsHeard(Run(ops), op, id);
    }
  }

  // ------------------------------------------------------------- descriptions

  datatype Description = Description(argsHash: string, grantScope: Option<string>, authorization: AuthorizationMode,
                                     grantReference: Option<string>, policyId: string)

  function DescriptionOf(r: Request): Description {
    Description(r.argsHash, r.grantScope, r.authorization, r.grantReference, r.policyId)
  }

  /** What this call writes as the request's description. */
  predicate Describes(s: Ledger, op: Op, id: string, d: Description) {
    match op
    case OpCreate(i, r) => i == id && id !in s.requests && d == DescriptionOf(r)
    case OpUpdate(i, u) =>
      && i == id && id in s.requests && d == DescriptionOf(u) && UpdateAllowed(s, id, u)
    case OpReissue(q, m) =>
      id == m.approvalId && q.approvalId in s.requests
      && d == DescriptionOf(s.requests[q.approvalId]).(policyId := q.policyId)
    case _ => false
  }

  /** The update is well formed, leaves the frozen identity alone, and still describes every
      call captured for the request. */
  predicate UpdateAllowed(s: Ledger, id: string, u: Request)
    requires id in s.requests
  {
    var r := s.requests[id];
    && (u.constraint, u.requiredOwner, u.reuseMode, u.reuseKey, u.review)
       == (r.constraint, r.requiredOwner, r.reuseMode, r.reuseKey, r.review)
    && (u.authorization.PersistentGrantMode? <==> u.grantReference.Some?)
    && forall b :: b in s.bindings && b.approvalId == id ==>
         (u.userId, u.toolCallId, u.toolName, u.argsHash) == (b.tenant, b.toolCallId, b.toolName, b.argsHash)
  }

  lemma UpdateIff(s: Ledger, id: string, u: Request)
    requires Inv(s) && id in s.requests
    ensures UpdateRequest(s, id, u).Done? <==> UpdateAllowed(s, id, u)
    ensures UpdateAllowed(s, id, u) ==>
              UpdateRequest(s, id, u).value.requests[id] == s.requests[id].(argsHash := u.argsHash,
              grantScope := u.grantScope, authorization := u.authorization, grantReference := u.grantReference,
              policyId := u.policyId)
  {
    InvAt(s, id);
    hide Inv;
    assert forall b :: b in RowsForApproval(s, id) <==> b in s.bindings && b.approvalId == id;
    hide RowsForApproval;
  }

  lemma PlainStepDescribes(s: Ledger, op: Op, id: string)
    requires BindingsOwned(s) && Legal(s, op) && !op.OpReissue? && !op.OpUpdate? && id in Step(s, op).requests
    ensures var d := DescriptionOf(Step(s, op).requests[id]);
            (id in s.requests && d == DescriptionOf(s.requests[id])) || Describes(s, op, id, d)
  {
    hide Colliding;
    hide VerifyAttempt;
    hide ValidRequest;
    hide HasVote;
    hide SameVote;
    hide RowsForCall;
    hide RowsForApproval;
    hide LinkedElsewhere;
    hide ValidPayload;
    hide RowRefuses;
    hide SupersededIds;
    hide PublishedNonce;
  }

  lemma StepDescribes(s: Ledger, op: Op, id: string)
    requires Inv(s) && BindingsOwned(s) && id in Apply(s, op).requests
    ensures var d := DescriptionOf(Apply(s, op).requests[id]);
            (id in s.requests && d == DescriptionOf(s.requests[id])) || Describes(s, op, id, d)
  {
    if op.OpReissue? {
      var q, m := op.request_, op.minted;
      hide ReissueParked;
      if Legal(s, op) && ReissueParked(s, q, m).Done? {
        if ReissueParked(s, q, m).value.created {
          var b := CreatedFrom(s, q, m);
          hide Inv;
          hide FromOtherGeneration;
          hide Linked;
          hide ValidPayload;
        } else {
          NotCreatedIsUnchanged(s, q, m);
        }
      }
    } else if op.OpUpdate? {
      if op.id in s.requests {
        UpdateIff(s, op.id, op.request);
      }
      hide Inv;
      hide ValidRequest;
    } else if Legal(s, op) {
      hide Inv;
      PlainStepDescribes(s, op, id);
      hide Step;
    }
  }

  ghost predicate DescribedAt(ops: seq<Op>, i: nat, id: string, d: Description) {
    i < |ops| && Describes(Run(ops[..i]), ops[i], id, d)
  }

  /** Every request's arguments hash, grant scope, authorization, grant reference and policy are
      exactly those of one call of the run: its creation, an allowed update, or a re-issue that
      copied them under its own policy. */
  lemma {:induction false} DescriptionsWereWritten(ops: seq<Op>, id: string)
    requires id in Run(ops).requests
    ensures exists i: nat :: DescribedAt(ops, i, id, DescriptionOf(Run(ops).requests[id]))
    decreases |ops|
  {
    if ops != [] {
      var n := |ops| - 1;
      assert ops[..|ops|] == ops;
      RunStep(ops, n);
      hide Run;
      hide Apply;
      hide Describes;
      var s, d := Run(ops[..n]), DescriptionOf(Run(ops).requests[id]);
      StepDescribes(s, ops[n], id);
      hide Inv;
      hide DescriptionOf;
      if Describes(s, ops[n], id, d) {
        assert DescribedAt(ops, n, id, d);
      } else {
        DescriptionsWereWritten(ops[..n], id);
        var i: nat :| DescribedAt(ops[..n], i, id, d);
        assert ops[..n][..i] == ops[..i] && ops[..n][i] == ops[i];
        assert DescribedAt(ops, i, id, d);
      }
    }
  }
}
