/** Where the rows of a reachable ledger come from: every taken call was claimed, and every
    grant was minted, by a call of the run that was entitled to. */
module LedgerProvenance {
  import opened Json
  import opened ApprovalPolicy
  import opened ApprovalLedger
  import opened LedgerRuns
  import opened LedgerGuarantees

  // ------------------------------------------------------------ taken calls

  /** A row of the same capture, taken by the same claim. */
  predicate SameClaim(a: Binding, b: Binding) {
    && SameCapture(a, b) && !a.execution.Unclaimed? && !b.execution.Unclaimed?
    && a.execution.token == b.execution.token && a.execution.decisionVersion == b.execution.decisionVersion
  }

  /** Every taken row was already taken, by the same claim. */
  ghost predicate NothingTaken(s: Ledger, s': Ledger) {
    forall b :: b in s'.bindings && !b.execution.Unclaimed? ==> exists a :: a in s.bindings && SameClaim(a, b)
  }

  lemma FewerRows(s: Ledger, s': Ledger, added: set<Binding>)
    requires s'.bindings <= s.bindings + added && forall b :: b in added ==> b.execution.Unclaimed?
    ensures NothingTaken(s, s')
  {
    forall b | b in s'.bindings && !b.execution.Unclaimed?
      ensures exists a :: a in s.bindings && SameClaim(a, b)
    {
      assert b in s.bindings && SameClaim(b, b);
    }
  }

  lemma ParkTakesNothing(s: Ledger, p: Payload, generation: Option<string>)
    requires BindingsOwned(s) && Park(s, p, generation).Done?
    ensures NothingTaken(s, Park(s, p, generation).value.ledger)
    ensures Park(s, p, generation).value.ledger.grants == s.grants
  {
    hide NothingTaken;
    var b := NewBinding(p, PublishedNonce(s, p, generation), s.requests[p.approvalId].argsHash);
    FewerRows(s, Park(s, p, generation).value.ledger, {b});
  }

  lemma PublishTakesNothing(w: Ledger, q: Reissue, m: Minted, b: Binding)
    requires BindingsOwned(w) && PublishSuccessor(w, q, m, b).Done?
    ensures NothingTaken(w, PublishSuccessor(w, q, m, b).value.ledger)
    ensures PublishSuccessor(w, q, m, b).value.ledger.grants == w.grants
  {
    var parked := Park(w, SuccessorPayload(q, m, b), Some(q.generation)).value;
    ParkTakesNothing(w, SuccessorPayload(q, m, b), Some(q.generation));
    hide Park;
    LinkEffect(parked.ledger, TurnKey(q.jobId, m.turnId), q.toolCallId, parked.nonce, q.tenant);
    hide LinkTurn;
  }

  lemma ReissueTakesNothing(s: Ledger, q: Reissue, m: Minted)
    requires BindingsOwned(s) && Unused(s, q, m)
    ensures match ReissueParked(s, q, m)
            case Done(x) => NothingTaken(s, x.ledger) && x.ledger.grants == s.grants
            case Raised(_) => true
  {
    FewerRows(s, s, {});
    hide NothingTaken;
    hide PublishSuccessor;
    hide ReadBinding;
    var o := ReissueParked(s, q, m);
    if o.Done? && o.value.ledger != s {
      var w := WithSuccessor(s, q, m);
      var b := ReadBinding(s, q.jobId, q.toolCallId, q.nonce, q.tenant).value;
      PublishTakesNothing(w, q, m, b);
      SameRowsTakeNothing(s, w, o.value.ledger);
    }
  }

  lemma SameRowsTakeNothing(s: Ledger, w: Ledger, s': Ledger)
    requires w.bindings == s.bindings && NothingTaken(w, s')
    ensures NothingTaken(s, s')
  {
  }

  lemma CompleteTakesNothing(s: Ledger, b: Binding, version: int, token: string, result: string)
    ensures NothingTaken(s, After(s, Complete(s, b, version, token, result)))
  {
    var o := Complete(s, b, version, token, result);
    if o.Done? && o.value != s {
      VerifiedIsStored(s, b);
      var current := VerifyAttempt(s, b).value;
      hide VerifyAttempt;
      forall c | c in o.value.bindings && !c.execution.Unclaimed?
        ensures exists a :: a in s.bindings && SameClaim(a, c)
      {
        if c in s.bindings {
          assert SameClaim(c, c);
        } else {
          assert SameClaim(current, c);
        }
      }
    } else {
      FewerRows(s, s, {});
    }
  }

  /** Only a claim takes a call. */
  lemma OnlyClaimTakes(s: Ledger, op: Op)
    requires BindingsOwned(s) && !op.OpClaim?
    ensures NothingTaken(s, Apply(s, op))
  {
    FewerRows(s, s, {});
    if Legal(s, op) {
      hide NothingTaken;
      if op.OpPark? {
        hide Park;
        if Park(s, op.payload, op.generation).Done? {
          ParkTakesNothing(s, op.payload, op.generation);
        }
      } else if op.OpReissue? {
        hide ReissueParked;
        ReissueTakesNothing(s, op.request_, op.minted);
      } else if op.OpComplete? {
        hide Complete;
        CompleteTakesNothing(s, op.binding, op.version, op.token, op.result);
      } else if op.OpRecord? {
        RecordTakesNothing(s, op.payload);
      } else if op.OpSupersede? {
        FewerRows(s, Apply(s, op), {});
      } else {
        OtherStepKeepsRows(s, op);
        FewerRows(s, Apply(s, op), {});
      }
    }
  }

  lemma RecordTakesNothing(s: Ledger, p: Payload)
    ensures NothingTaken(s, After(s, RecordBinding(s, p)))
  {
    hide NothingTaken;
    if p.approvalId in s.requests {
      FewerRows(s, After(s, RecordBinding(s, p)), {NewBinding(p, p.nonce, s.requests[p.approvalId].argsHash)});
    } else {
      FewerRows(s, s, {});
    }
  }

  lemma OtherStepKeepsRows(s: Ledger, op: Op)
    requires BindingsOwned(s) && Legal(s, op)
    requires !op.OpClaim? && !op.OpPark? && !op.OpReissue? && !op.OpComplete? && !op.OpRecord? && !op.OpSupersede?
    ensures Step(s, op).bindings == s.bindings
  {
  }

  /** The claim of the run that took this row. */
  ghost predicate TakenBy(ops: seq<Op>, i: nat, b: Binding) {
    && ClaimedAt(ops, i, b.jobId, b.toolCallId)
    && !b.execution.Unclaimed? && ops[i].token == b.execution.token && ops[i].version == b.execution.decisionVersion
  }

  lemma ClaimedAtPrefix(ops: seq<Op>, n: nat, i: nat, b: Binding)
    requires n <= |ops| && TakenBy(ops[..n], i, b)
    ensures TakenBy(ops, i, b)
  {
    hide Run;
    hide Claim;
    assert ops[..n][..i] == ops[..i];
  }

  /** Every claimed or completed row of a reachable ledger was taken by a successful claim of
      the run, with its own token and decision version. */
  lemma {:induction false} TakenWasClaimed(ops: seq<Op>, b: Binding)
    requires b in Run(ops).bindings && !b.execution.Unclaimed?
    ensures exists i :: TakenBy(ops, i, b)
    decreases |ops|
  {
    if ops != [] {
      var n := |ops| - 1;
      assert ops[..|ops|] == ops;
      RunStep(ops, n);
      hide Run;
      if ops[n].OpClaim? {
        ClaimTakesOne(ops, b);
      } else {
        hide Apply;
        OnlyClaimTakes(Run(ops[..n]), ops[n]);
        var a :| a in Run(ops[..n]).bindings && SameClaim(a, b);
        TakenWasClaimed(ops[..n], a);
        var i :| TakenBy(ops[..n], i, a);
        ClaimedAtPrefix(ops, n, i, a);
        hide ClaimedAt;
        assert TakenBy(ops, i, b);
      }
    }
  }

  lemma {:induction false} ClaimTakesOne(ops: seq<Op>, b: Binding)
    requires 0 < |ops| && ops[|ops| - 1].OpClaim?
    requires Run(ops) == Apply(Run(ops[..|ops| - 1]), ops[|ops| - 1])
    requires b in Run(ops).bindings && !b.execution.Unclaimed?
    ensures exists i :: TakenBy(ops, i, b)
    decreases |ops|, 0
  {
    hide Run;
    var n := |ops| - 1;
    var s, op := Run(ops[..n]), ops[n];
    if b in s.bindings {
      TakenWasClaimed(ops[..n], b);
      var i :| TakenBy(ops[..n], i, b);
      ClaimedAtPrefix(ops, n, i, b);
    } else {
      ClaimAddsOne(s, op.binding, op.version, op.token, b);
      hide Claim;
      assert TakenBy(ops, n, b);
    }
  }

  lemma ClaimAddsOne(s: Ledger, b: Binding, version: int, token: string, taken: Binding)
    requires match Claim(s, b, version, token) case Done(Reserved(s')) => taken in s'.bindings
             && taken !in s.bindings case _ => false
    ensures taken.execution == Claimed(token, version) && ForCall(b, taken.jobId, taken.toolCallId)
  {
    VerifiedIsStored(s, b);
  }

  // ------------------------------------------------------------------ grants

  /** Only minting adds a grant. */
  lemma OnlyMintAddsGrants(s: Ledger, op: Op)
    requires BindingsOwned(s) && !op.OpGrant?
    ensures Apply(s, op).grants.Keys == s.grants.Keys
  {
    if Legal(s, op) {
      if op.OpPark? {
        hide Park;
        if Park(s, op.payload, op.generation).Done? {
          ParkTakesNothing(s, op.payload, op.generation);
        }
      } else if op.OpReissue? {
        hide ReissueParked;
        ReissueTakesNothing(s, op.request_, op.minted);
      } else {
        hide Park;
        hide ReissueParked;
        hide VerifyAttempt;
        hide Colliding;
      }
    }
  }

  /** The i-th call minted this grant, through a request approved for exactly its user, tool and scope. */
  ghost predicate MintedAt(ops: seq<Op>, i: nat, grantId: string, g: Grant) {
    && i < |ops| && ops[i].OpGrant? && ops[i].grantId == grantId
    && ops[i].grant.(revoked := g.revoked) == g
    && var s := Run(ops[..i]);
       && g.via in s.requests && g.via !in s.fences
       && var r := s.requests[g.via];
          && r.constraint.Standard? && r.state.Approved? && r.decision == Some(Approved)
          && r.userId == g.userId && r.toolName == g.toolName && ReuseMatches(r, g.scope)
  }

  predicate ReuseMatches(r: Request, scope: string) {
    r.grantScope == Some(scope) && !r.reuseMode.Disabled? && (r.reuseMode.Exact? ==> r.reuseKey == Some(scope))
  }

  lemma MintedAtPrefix(ops: seq<Op>, n: nat, i: nat, grantId: string, g: Grant)
    requires n <= |ops| && MintedAt(ops[..n], i, grantId, g)
    ensures MintedAt(ops, i, grantId, g)
  {
    hide Run;
    assert ops[..n][..i] == ops[..i];
  }

  /** Every grant of a reachable ledger was minted by a call of the run while its approval was
      approved, unfenced and reusable for exactly that user, tool and scope. */
  lemma {:induction false} GrantsWereApproved(ops: seq<Op>, grantId: string)
    requires grantId in Run(ops).grants
    ensures exists i :: MintedAt(ops, i, grantId, Run(ops).grants[grantId])
    decreases |ops|
  {
    if ops != [] {
      var n := |ops| - 1;
      assert ops[..|ops|] == ops;
      RunStep(ops, n);
      hide Run;
      hide Inv;
      var s := Run(ops[..n]);
      var g := Run(ops).grants[grantId];
      if grantId in s.grants {
        GrantsWereApproved(ops[..n], grantId);
        var i :| MintedAt(ops[..n], i, grantId, s.grants[grantId]);
        RunEvolves(ops, n, |ops|);
        assert GrantEvolves(s.grants[grantId], g);
        hide Evolves;
        assert MintedAt(ops[..n], i, grantId, g);
        MintedAtPrefix(ops, n, i, grantId, g);
      } else {
        if !ops[n].OpGrant? {
          OnlyMintAddsGrants(s, ops[n]);
          assert false;
        }
        assert MintedAt(ops, n, grantId, g);
      }
    }
  }

  // ------------------------------------------------------- who may do what

  /** What a decision is: its state, version, author, verdict and reason. */
  function Verdict(r: Request): (ApprovalState, int, Option<string>, Option<ApprovalState>, Option<string>) {
    (r.state, r.version, r.deciderId, r.decision, r.reason)
  }

  /** The calls entitled to write a request's decision: a transition or a vote that names it,
      its owner cancelling or aborting it while it is open, a plan that replaces it while it
      is open, and a park or re-issue of its own captured call from another generation. */
  ghost predicate MayDecide(s: Ledger, op: Op, id: string)
    requires BindingsOwned(s) && id in s.requests
  {
    var r := s.requests[id];
    match op
    case OpTransition(i, _, expected, _, _, _) => i == id && (expected.Some? ==> expected.value == r.version)
    case OpVote(_, vote, _) => vote.approvalId == id && !Terminal(r.state)
    case OpCancel(i, owner, _, _) => i == id && Owns(owner, r) && r.state.PendingUser?
    case OpAbort(i, owner, _) => i == id && Owns(owner, r) && !Terminal(r.state)
    case OpSupersede(predecessor, _, _) => predecessor == id && Undecided(r)
    case OpPark(p, generation) => id in SupersededIds(s, p, generation)
    case OpReissue(q, _) =>
      && r.state in {Created, PendingUser, Approved}
      && exists b :: b in RowsForCall(s, q.jobId, q.toolCallId) && b.approvalId == id && b.execution.Unclaimed?
    case _ => false
  }

  lemma ParkVerdicts(s: Ledger, p: Payload, generation: Option<string>, id: string)
    requires BindingsOwned(s) && Park(s, p, generation).Done? && id in s.requests
    ensures var s' := Park(s, p, generation).value.ledger;
            && id in s'.requests
            && (if id in SupersededIds(s, p, generation)
                then s'.requests[id].state.Expired? && s'.requests[id].version == s.requests[id].version + 1
                else Verdict(s'.requests[id]) == Verdict(s.requests[id]))
    ensures p.approvalId !in SupersededIds(s, p, generation)
    ensures forall b :: b in Colliding(s, p.approvalId, p.jobId, p.toolCallId) ==> b.execution.Unclaimed?
  {
    hide PublishedNonce;
    hide OtherGeneration;
    assert forall b :: b in Colliding(s, p.approvalId, p.jobId, p.toolCallId) ==> !RowRefuses(s, b, p, generation);
    hide SupersededIds;
    hide Colliding;
  }

  lemma ReissueVerdicts(s: Ledger, q: Reissue, m: Minted, id: string)
    requires Inv(s) && BindingsOwned(s) && Unused(s, q, m) && id in s.requests
    requires ReissueParked(s, q, m).Done?
    ensures var s' := ReissueParked(s, q, m).value.ledger;
            && id in s'.requests
            && (if MayDecide(s, OpReissue(q, m), id) && ReissueParked(s, q, m).value.created
                then s'.requests[id].state.Expired? && s'.requests[id].version == s.requests[id].version + 1
                else Verdict(s'.requests[id]) == Verdict(s.requests[id]))
            && (s' != s <==> ReissueParked(s, q, m).value.created)
  {
    var x := ReissueParked(s, q, m).value;
    if x.created {
      var b, parked, linked := ReissueHasTrace(s, q, m);
      var w, p := WithSuccessor(s, q, m), SuccessorPayload(q, m, b);
      ReissueParks(s, q, m, b);
      hide Inv;
      hide ReadBinding;
      hide ReissueParked;
      ParkVerdicts(w, p, Some(q.generation), id);
      assert b in Colliding(w, m.approvalId, q.jobId, q.toolCallId);
      hide Park;
      LinkEffect(parked.ledger, TurnKey(q.jobId, m.turnId), q.toolCallId, parked.nonce, q.tenant);
      hide LinkTurn;
      CallIsSuperseded(s, q, m, b, id);
      assert m.approvalId in x.ledger.requests && m.approvalId !in s.requests;
    } else {
      NotCreatedIsUnchanged(s, q, m);
    }
  }

  /** A park that commits over an undecided or approved approval's call supersedes it. */
  lemma CallIsSuperseded(s: Ledger, q: Reissue, m: Minted, b: Binding, id: string)
    requires BindingsOwned(s) && Unused(s, q, m) && id in s.requests
    requires q.approvalId in s.requests && TurnKey(q.jobId, q.turnId) in s.turns
    requires b in s.bindings && ForCall(b, q.jobId, q.toolCallId) && b.approvalId != m.approvalId
    requires BindingsOwned(WithSuccessor(s, q, m))
    requires Colliding(WithSuccessor(s, q, m), m.approvalId, q.jobId, q.toolCallId) == {b}
    requires Park(WithSuccessor(s, q, m), SuccessorPayload(q, m, b), Some(q.generation)).Done?
    ensures id in SupersededIds(WithSuccessor(s, q, m), SuccessorPayload(q, m, b), Some(q.generation))
            <==> MayDecide(s, OpReissue(q, m), id)
  {
    hide PublishedNonce;
    hide OtherGeneration;
    var w, p := WithSuccessor(s, q, m), SuccessorPayload(q, m, b);
    assert b in Colliding(w, p.approvalId, p.jobId, p.toolCallId);
    assert !RowRefuses(w, b, p, Some(q.generation));
    forall c | c in RowsForCall(s, q.jobId, q.toolCallId)
      ensures c == b
    {
      assert c in Colliding(w, m.approvalId, q.jobId, q.toolCallId);
    }
    assert b in RowsForCall(s, q.jobId, q.toolCallId);
  }

  /** What one step does to one request's decision. */
  ghost predicate DecidesAs(s: Ledger, s': Ledger, op: Op, id: string)
    requires BindingsOwned(s) && id in s.requests
  {
    && id in s'.requests
    && var r, r' := s.requests[id], s'.requests[id];
       && (Verdict(r') != Verdict(r) <==> MayDecide(s, op, id) && s' != s)
       && (Verdict(r') != Verdict(r) ==> r'.version == r.version + 1)
       && (r'.state.Approved? && !r.state.Approved? ==>
             (op.OpVote? && op.vote.decision.Approved?) || (op.OpTransition? && op.state.Approved?))
  }

  /** One step: a decision is written exactly when a call entitled to it commits, and then its
      version rises by exactly one. */
  lemma StepDecides(s: Ledger, op: Op, id: string)
    requires Inv(s) && BindingsOwned(s) && id in s.requests
    ensures DecidesAs(s, Apply(s, op), op, id)
  {
    hide Inv;
    if Legal(s, op) {
      hide Step;
      hide DecidesAs;
      if op.OpPark? {
        ParkDecides(s, op, id);
      } else if op.OpReissue? {
        ReissueDecides(s, op, id);
      } else if op.OpTransition? || op.OpCancel? {
        WriteDecides(s, op, id);
      } else if op.OpVote? {
        VoteWrites(s, op, id);
      } else if op.OpAbort? || op.OpSupersede? {
        DropDecides(s, op, id);
      } else {
        OthersDecideNothing(s, op, id);
      }
    }
  }

  lemma ParkDecides(s: Ledger, op: Op, id: string)
    requires BindingsOwned(s) && id in s.requests && op.OpPark?
    ensures DecidesAs(s, Step(s, op), op, id)
  {
    hide Park;
    hide SupersededIds;
    if Park(s, op.payload, op.generation).Done? {
      ParkVerdicts(s, op.payload, op.generation, id);
    }
  }

  lemma ReissueDecides(s: Ledger, op: Op, id: string)
    requires Inv(s) && BindingsOwned(s) && id in s.requests && op.OpReissue? && Legal(s, op)
    ensures DecidesAs(s, Step(s, op), op, id)
  {
    hide Inv;
    hide ReissueParked;
    hide MayDecide;
    if ReissueParked(s, op.request_, op.minted).Done? {
      ReissueVerdicts(s, op.request_, op.minted, id);
    }
  }

  lemma VoteWrites(s: Ledger, op: Op, id: string)
    requires BindingsOwned(s) && id in s.requests && Legal(s, op) && op.OpVote?
    ensures DecidesAs(s, Step(s, op), op, id)
  {
    hide HasVote;
    hide SameVote;
  }

  lemma WriteDecides(s: Ledger, op: Op, id: string)
    requires BindingsOwned(s) && id in s.requests && Legal(s, op)
    requires op.OpTransition? || op.OpCancel?
    ensures DecidesAs(s, Step(s, op), op, id)
  {
    hide SupersededIds;
  }

  lemma DropDecides(s: Ledger, op: Op, id: string)
    requires BindingsOwned(s) && id in s.requests && Legal(s, op)
    requires op.OpAbort? || op.OpSupersede?
    ensures DecidesAs(s, Step(s, op), op, id)
  {
    hide SupersededIds;
  }

  lemma OthersDecideNothing(s: Ledger, op: Op, id: string)
    requires BindingsOwned(s) && id in s.requests && Legal(s, op) && !op.OpPark? && !op.OpReissue?
    requires !op.OpTransition? && !op.OpVote? && !op.OpCancel? && !op.OpAbort? && !op.OpSupersede?
    ensures DecidesAs(s, Step(s, op), op, id)
  {
    hide VerifyAttempt;
    hide Colliding;
    hide ValidRequest;
    hide RowsForCall;
    hide SupersededIds;
    assert !MayDecide(s, op, id);
    hide MayDecide;
  }

  /** In every run a request's decision is written exactly when a call entitled to write it
      commits, which raises its version by one; and only a vote or a transition ever approves a request. */
  lemma DecisionsHaveCauses(ops: seq<Op>, i: nat, id: string)
    requires i < |ops| && id in Run(ops[..i]).requests
    ensures id in Run(ops[..i + 1]).requests
    ensures var r, r' := Run(ops[..i]).requests[id], Run(ops[..i + 1]).requests[id];
            && (Verdict(r') != Verdict(r) <==>
                  MayDecide(Run(ops[..i]), ops[i], id) && Run(ops[..i + 1]) != Run(ops[..i]))
            && (Verdict(r') != Verdict(r) ==> r'.version == r.version + 1)
            && (r'.state.Approved? && !r.state.Approved? ==>
                  (ops[i].OpVote? && ops[i].vote.decision.Approved?)
                  || (ops[i].OpTransition? && ops[i].state.Approved?))
  {
    RunStep(ops, i);
    hide Run;
    hide Apply;
    hide MayDecide;
    hide Inv;
    StepDecides(Run(ops[..i]), ops[i], id);
  }

  /** A vote on an open request decides it as voted, in the voter's name, one version up; a
      vote on a decided one changes nothing. */
  lemma VoteDecides(ops: seq<Op>, voteId: string, vote: Vote, reason: Option<string>)
    requires vote.decision in {Approved, Denied} && vote.approvalId in Run(ops).requests && voteId !in Run(ops).votes
    ensures var s := Run(ops); var r := s.requests[vote.approvalId];
            RecordVote(s, voteId, vote, reason) ==
            if Terminal(r.state) then Done(s)
            else Done(s.(votes := s.votes[voteId := vote],
                         requests := s.requests[vote.approvalId := r.(state := vote.decision, version := r.version + 1,
                           deciderId := Some(vote.deciderId), decision := Some(vote.decision), reason := reason)]))
  {
    hide Run;
    hide Evolves;
    VoteGood(Run(ops), voteId, vote, reason);
  }
}
