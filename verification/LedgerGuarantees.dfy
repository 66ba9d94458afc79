/** Whole runs of the approval ledger: at-most-once execution, decision finality,
    unambiguous root turns, and fences that no grant survives. */
module LedgerGuarantees {
  import opened Json
  import opened ApprovalPolicy
  import opened ApprovalLedger
  import opened LedgerRuns

  // ------------------------------------------------------ re-issue as a step

  lemma OwnedByInv(s: Ledger)
    requires Inv(s)
    ensures BindingsOwned(s) && RowsUnique(s)
  {
  }

  lemma SuccessorGood(s: Ledger, q: Reissue, m: Minted)
    requires Inv(s) && Unused(s, q, m) && q.approvalId in s.requests && TurnKey(q.jobId, q.turnId) in s.turns
    ensures Good(s, WithSuccessor(s, q, m))
  {
    var r := Fresh(s.requests[q.approvalId], q.policyId);
    InvAt(s, q.approvalId);
    CreateGood(s, m.approvalId, r);
    var s1 := s.(requests := s.requests[m.approvalId := r]);
    assert CreateRequest(s, m.approvalId, r) == Done(s1);
    hide Inv;
    hide Evolves;
    var t := s.turns[TurnKey(q.jobId, q.turnId)];
    TurnGood(s1, TurnKey(q.jobId, m.turnId), q.tenant, t.authority, q.generation);
    GoodThen(s, s1, WithSuccessor(s, q, m));
  }

  /** The states a successful re-issue goes through. */
  ghost predicate ReissueTrace(s: Ledger, q: Reissue, m: Minted, b: Binding, parked: Parked, linked: Ledger,
                               x: Reissued)
    requires BindingsOwned(s) && Unused(s, q, m)
  {
    && q.approvalId in s.requests
    && TurnKey(q.jobId, q.turnId) in s.turns
    && s.turns[TurnKey(q.jobId, q.turnId)].tenant == q.tenant
    && ReadBinding(s, q.jobId, q.toolCallId, q.nonce, q.tenant) == Done(b)
    && BindingsOwned(WithSuccessor(s, q, m))
    && Park(WithSuccessor(s, q, m), SuccessorPayload(q, m, b), Some(q.generation)) == Done(parked)
    && LinkTurn(parked.ledger, TurnKey(q.jobId, m.turnId), q.toolCallId, parked.nonce, q.tenant) == Done(linked)
    && m.approvalId in linked.requests
    && var c := linked.requests[m.approvalId];
       && WriteTransition(linked, m.approvalId, c.(state := PendingUser, version := c.version + 1)) == Done(x.ledger)
       && x == Reissued(x.ledger, m.approvalId, parked.nonce, m.turnId, true)
  }

  lemma ReissueHasTrace(s: Ledger, q: Reissue, m: Minted) returns (b: Binding, parked: Parked, linked: Ledger)
    requires BindingsOwned(s) && Unused(s, q, m)
    requires ReissueParked(s, q, m).Done? && ReissueParked(s, q, m).value.created
    ensures ReissueTrace(s, q, m, b, parked, linked, ReissueParked(s, q, m).value)
  {
    hide ReadBinding;
    hide Park;
    hide LinkTurn;
    b := ReadBinding(s, q.jobId, q.toolCallId, q.nonce, q.tenant).value;
    parked := Park(WithSuccessor(s, q, m), SuccessorPayload(q, m, b), Some(q.generation)).value;
    linked := LinkTurn(parked.ledger, TurnKey(q.jobId, m.turnId), q.toolCallId, parked.nonce, q.tenant).value;
  }

  lemma TraceGood(s: Ledger, q: Reissue, m: Minted, b: Binding, parked: Parked, linked: Ledger, x: Reissued)
    requires Inv(s) && BindingsOwned(s) && Unused(s, q, m)
    requires ReissueTrace(s, q, m, b, parked, linked, x)
    ensures Good(s, x.ledger) && Good(s, parked.ledger) && Inv(WithSuccessor(s, q, m)) && Inv(linked)
  {
    hide Inv;
    hide Evolves;
    hide ReadBinding;
    hide Park;
    hide LinkTurn;
    hide WriteTransition;
    hide BindingsOwned;
    var w := WithSuccessor(s, q, m);
    SuccessorGood(s, q, m);
    ParkGood(w, SuccessorPayload(q, m, b), Some(q.generation));
    LinkGood(parked.ledger, TurnKey(q.jobId, m.turnId), q.toolCallId, parked.nonce, q.tenant);
    var c := linked.requests[m.approvalId];
    WriteGood(linked, m.approvalId, c.(state := PendingUser, version := c.version + 1));
    GoodThen(s, w, parked.ledger);
    GoodThen(s, parked.ledger, linked);
    GoodThen(s, linked, x.ledger);
  }

  lemma ReissueGood(s: Ledger, q: Reissue, m: Minted)
    requires Inv(s) && BindingsOwned(s) && Unused(s, q, m)
    ensures match ReissueParked(s, q, m) case Done(x) => Good(s, x.ledger) case Raised(_) => true
  {
    var o := ReissueParked(s, q, m);
    if o.Done? {
      if o.value.created {
        var b, parked, linked := ReissueHasTrace(s, q, m);
        TraceGood(s, q, m, b, parked, linked, o.value);
      } else {
        NothingChanged(s);
        NotCreatedIsUnchanged(s, q, m);
      }
    }
  }

  lemma NotCreatedIsUnchanged(s: Ledger, q: Reissue, m: Minted)
    requires BindingsOwned(s) && Unused(s, q, m)
    requires ReissueParked(s, q, m).Done? && !ReissueParked(s, q, m).value.created
    ensures ReissueParked(s, q, m).value.ledger == s
  {
    hide ReadBinding;
    hide Park;
    hide LinkTurn;
  }

  // ------------------------------------------------------------------- runs

  /** A call the store refuses outright leaves the tables alone. */
  ghost function Apply(s: Ledger, op: Op): Ledger
    requires BindingsOwned(s)
  {
    if Legal(s, op) then Step(s, op) else s
  }

  lemma RequestStepGood(s: Ledger, op: Op)
    requires Inv(s) && BindingsOwned(s) && Legal(s, op)
    requires op.OpCreate? || op.OpTransition? || op.OpCancel? || op.OpAbort? || op.OpVote? || op.OpUpdate?
    ensures Good(s, Step(s, op))
  {
    hide Inv;
    hide Good;
    hide CreateRequest;
    hide Transition;
    hide Cancel;
    hide Abort;
    hide RecordVote;
    hide UpdateRequest;
    match op {
      case OpCreate(id, r) => CreateGood(s, id, r);
      case OpTransition(id, state, expected, decider, decision, reason) =>
        TransitionGood(s, id, state, expected, decider, decision, reason);
      case OpCancel(id, owner, decider, why) => CancelGood(s, id, owner, decider, why);
      case OpAbort(id, owner, why) => AbortGood(s, id, owner, why);
      case OpVote(voteId, vote, reason) => VoteGood(s, voteId, vote, reason);
      case OpUpdate(id, r) => UpdateGood(s, id, r);
    }
  }

  lemma CallStepGood(s: Ledger, op: Op)
    requires Inv(s) && BindingsOwned(s) && Legal(s, op)
    requires op.OpRecord? || op.OpPark? || op.OpSupersede? || op.OpReissue? || op.OpClaim? || op.OpComplete?
    ensures Good(s, Step(s, op))
  {
    hide Inv;
    hide Good;
    hide RecordBinding;
    hide Park;
    hide Supersede;
    hide ReissueParked;
    hide Claim;
    hide Complete;
    NothingChanged(s);
    match op {
      case OpRecord(p) => RecordGood(s, p);
      case OpPark(p, generation) => ParkGood(s, p, generation);
      case OpSupersede(a, b, pending) => SupersedeGood(s, a, b, pending);
      case OpReissue(q, m) => ReissueGood(s, q, m);
      case OpClaim(b, version, token) => ClaimGood(s, b, version, token);
      case OpComplete(b, version, token, result) => CompleteGood(s, b, version, token, result);
    }
  }

  lemma StepGood(s: Ledger, op: Op)
    requires Inv(s) && BindingsOwned(s)
    ensures Good(s, Apply(s, op))
  {
    NothingChanged(s);
    hide Inv;
    hide Good;
    if Legal(s, op) {
      if op.OpCreate? || op.OpTransition? || op.OpCancel? || op.OpAbort? || op.OpVote? || op.OpUpdate? {
        hide Step;
        RequestStepGood(s, op);
      } else if op.OpRecord? || op.OpPark? || op.OpSupersede? || op.OpReissue? || op.OpClaim? || op.OpComplete? {
        hide Step;
        CallStepGood(s, op);
      } else {
        OtherStepGood(s, op);
      }
    }
  }

  lemma OtherStepGood(s: Ledger, op: Op)
    requires Inv(s) && BindingsOwned(s) && Legal(s, op)
    requires op.OpTurn? || op.OpLink? || op.OpGrant? || op.OpRevoke? || op.OpRevokeVia? || op.OpFence?
    ensures Good(s, Step(s, op))
  {
    hide Inv;
    hide Good;
    hide RecordTurn;
    hide LinkTurn;
    hide CreateGrant;
    hide RevokeGrant;
    hide Fence;
    match op {
      case OpTurn(k, tenant, authority, policy) => TurnGood(s, k, tenant, authority, policy);
      case OpLink(k, call, nonce, tenant) => LinkGood(s, k, call, nonce, tenant);
      case OpGrant(id, g) => GrantGood(s, id, g);
      case OpRevoke(id) => RevokeOneGood(s, id);
      case OpRevokeVia(id) => RevokeGood(s, id);
      case OpFence(id, owner) => FenceGood(s, id, owner);
    }
  }

  lemma EmptyInv()
    ensures Inv(EMPTY_LEDGER)
  {
  }

  /** The ledger after a run of calls on an empty one. */
  ghost function Run(ops: seq<Op>): (s: Ledger)
    ensures Inv(s) && BindingsOwned(s)
  {
    if ops == [] then
      EmptyInv(); EMPTY_LEDGER
    else
      var before := Run(ops[..|ops| - 1]);
      StepGood(before, ops[|ops| - 1]);
      OwnedByInv(Apply(before, ops[|ops| - 1]));
      Apply(before, ops[|ops| - 1])
  }

  lemma RunStep(ops: seq<Op>, i: nat)
    requires i < |ops|
    ensures Run(ops[..i + 1]) == Apply(Run(ops[..i]), ops[i])
  {
    assert ops[..i + 1][..i] == ops[..i];
  }

  /** Between any two points of a run the tables only evolve. */
  lemma {:induction false} RunEvolves(ops: seq<Op>, i: nat, j: nat)
    requires i <= j <= |ops|
    ensures Evolves(Run(ops[..i]), Run(ops[..j]))
    decreases j
  {
    hide Evolves;
    hide Run;
    hide Apply;
    hide Inv;
    if i == j {
      EvolvesReflexive(Run(ops[..i]));
    } else {
      RunEvolves(ops, i, j - 1);
      RunStep(ops, j - 1);
      StepGood(Run(ops[..j - 1]), ops[j - 1]);
      EvolvesTransitive(Run(ops[..i]), Run(ops[..j - 1]), Run(ops[..j]));
    }
  }

  // ------------------------------------------------- at-most-once execution

  /** The i-th call of the run reserved the attempt at this captured call. */
  ghost predicate ClaimedAt(ops: seq<Op>, i: nat, jobId: string, toolCallId: string) {
    && i < |ops|
    && ops[i].OpClaim?
    && ForCall(ops[i].binding, jobId, toolCallId)
    && var o := Claim(Run(ops[..i]), ops[i].binding, ops[i].version, ops[i].token);
       o.Done? && o.value.Reserved?
  }

  /** The row a reservation takes. */
  lemma ClaimTakes(s: Ledger, b: Binding, version: int, token: string) returns (row: Binding)
    requires Inv(s)
    requires Claim(s, b, version, token).Done? && Claim(s, b, version, token).value.Reserved?
    ensures row in s.bindings && row.execution.Unclaimed? && SameCapture(row, b)
    ensures row.approvalId in s.requests && Executable(s.requests[row.approvalId])
    ensures s.requests[row.approvalId].version == version
    ensures row.(execution := Claimed(token, version)) in Claim(s, b, version, token).value.ledger.bindings
  {
    VerifiedIsStored(s, b);
    row := VerifyAttempt(s, b).value;
  }

  lemma ClaimedStays(b: Binding, s: Ledger, s': Ledger)
    requires b in s.bindings && !b.execution.Unclaimed? && Evolves(s, s')
    ensures exists c :: c in s'.bindings && SameCapture(c, b) && !c.execution.Unclaimed?
  {
    assert ClaimKept(b, s'.bindings);
    if b !in s'.bindings {
      var result :| CompletedWith(b, result) in s'.bindings;
      assert SameCapture(CompletedWith(b, result), b);
    } else {
      assert SameCapture(b, b);
    }
  }

  /** No reservation succeeds on a call whose stored row is already taken. */
  lemma TakenRefuses(s: Ledger, c: Binding, b: Binding, version: int, token: string)
    requires Inv(s) && c in s.bindings && !c.execution.Unclaimed? && ForCall(b, c.jobId, c.toolCallId)
    ensures !(Claim(s, b, version, token).Done? && Claim(s, b, version, token).value.Reserved?)
  {
    if Claim(s, b, version, token).Done? && Claim(s, b, version, token).value.Reserved? {
      var row := ClaimTakes(s, b, version, token);
      assert ForCall(row, c.jobId, c.toolCallId);
      assert false;
    }
  }

  /** After a reservation the run holds the taken row. */
  lemma ClaimLeavesTaken(ops: seq<Op>, i: nat, jobId: string, toolCallId: string) returns (taken: Binding)
    requires ClaimedAt(ops, i, jobId, toolCallId)
    ensures taken in Run(ops[..i + 1]).bindings && !taken.execution.Unclaimed? && ForCall(taken, jobId, toolCallId)
  {
    hide Run;
    hide Claim;
    hide Inv;
    hide BindingsOwned;
    var s := Run(ops[..i]);
    var op := ops[i];
    var row := ClaimTakes(s, op.binding, op.version, op.token);
    taken := row.(execution := Claimed(op.token, op.version));
    RunStep(ops, i);
  }

  /** Each captured call is reserved at most once in any run. */
  lemma AtMostOneClaim(ops: seq<Op>, i: nat, j: nat, jobId: string, toolCallId: string)
    requires i < j && ClaimedAt(ops, i, jobId, toolCallId)
    ensures !ClaimedAt(ops, j, jobId, toolCallId)
  {
    if j < |ops| && ops[j].OpClaim? && ForCall(ops[j].binding, jobId, toolCallId) {
      var taken := ClaimLeavesTaken(ops, i, jobId, toolCallId);
      hide Run;
      hide Claim;
      hide Evolves;
      hide Inv;
      RunEvolves(ops, i + 1, j);
      ClaimedStays(taken, Run(ops[..i + 1]), Run(ops[..j]));
      var c :| c in Run(ops[..j]).bindings && SameCapture(c, taken) && !c.execution.Unclaimed?;
      TakenRefuses(Run(ops[..j]), c, ops[j].binding, ops[j].version, ops[j].token);
    }
  }

  /** A reservation is made on a request that is executable at the claimed version, under
      the constraint and owner it carried at every earlier point of the run. */
  lemma ClaimIsAuthorized(ops: seq<Op>, i: nat, jobId: string, toolCallId: string) returns (row: Binding)
    requires ClaimedAt(ops, i, jobId, toolCallId)
    ensures row in Run(ops[..i]).bindings && ForCall(row, jobId, toolCallId)
    ensures row.approvalId in Run(ops[..i]).requests
    ensures var r := Run(ops[..i]).requests[row.approvalId];
            && r.version == ops[i].version
            && !r.constraint.LegacyUnknown?
            && (r.constraint.FreshHumanOwner? ==>
                  r.state.Approved? && r.requiredOwner.Some? && r.deciderId == r.requiredOwner)
            && (r.constraint.Standard? ==> r.state in {Approved, AutoApproved})
            && forall k: nat :: k <= i && row.approvalId in Run(ops[..k]).requests ==>
                 SameFrozenIdentity(Run(ops[..k]).requests[row.approvalId], r)
  {
    var s := Run(ops[..i]);
    row := ClaimTakes(s, ops[i].binding, ops[i].version, ops[i].token);
    InvAt(s, row.approvalId);
    hide Run;
    hide Claim;
    hide Inv;
    forall k: nat | k <= i && row.approvalId in Run(ops[..k]).requests
      ensures SameFrozenIdentity(Run(ops[..k]).requests[row.approvalId], s.requests[row.approvalId])
    {
      RunEvolves(ops, k, i);
    }
  }

  /** A taken call is never deleted or replaced, and a completed result never changes. */
  lemma TakenCallsAreKept(ops: seq<Op>, i: nat, j: nat, b: Binding)
    requires i <= j <= |ops| && b in Run(ops[..i]).bindings && !b.execution.Unclaimed?
    ensures b.execution.Completed? ==> b in Run(ops[..j]).bindings
    ensures exists c :: c in Run(ops[..j]).bindings && SameCapture(c, b) && !c.execution.Unclaimed?
    ensures forall c :: c in Run(ops[..j]).bindings && ForCall(c, b.jobId, b.toolCallId) ==> SameCapture(c, b)
  {
    RunEvolves(ops, i, j);
    hide Run;
    ClaimedStays(b, Run(ops[..i]), Run(ops[..j]));
    var c :| c in Run(ops[..j]).bindings && SameCapture(c, b) && !c.execution.Unclaimed?;
    assert ForCall(c, b.jobId, b.toolCallId);
    assert ClaimKept(b, Run(ops[..j]).bindings);
  }

  /** Every stored binding reads back with its own identity, in every reachable ledger. */
  lemma BindingsAlwaysVerify(ops: seq<Op>, b: Binding)
    requires b in Run(ops).bindings
    ensures ReadBinding(Run(ops), b.jobId, b.toolCallId, b.nonce, b.tenant) == Done(b)
    ensures VerifyAttempt(Run(ops), b) == Done(b)
    ensures b.approvalId in Run(ops).requests && Agrees(b, Run(ops).requests[b.approvalId])
  {
    hide Run;
    StoredBindingVerifies(Run(ops), b);
  }

  // ------------------------------------------------------ decision finality

  /** A decided request stays decided, and every change of its decision raises its version. */
  lemma DecisionsAreFinal(ops: seq<Op>, i: nat, j: nat, id: string)
    requires i <= j <= |ops| && id in Run(ops[..i]).requests
    ensures id in Run(ops[..j]).requests
    ensures var r, r' := Run(ops[..i]).requests[id], Run(ops[..j]).requests[id];
            && (Terminal(r.state) ==> Terminal(r'.state))
            && r.version <= r'.version
            && ((r.state, r.deciderId, r.decision, r.reason) != (r'.state, r'.deciderId, r'.decision, r'.reason)
                ==> r.version < r'.version)
            && SameFrozenIdentity(r, r')
  {
    hide Run;
    hide Inv;
    RunEvolves(ops, i, j);
  }

  /** Every stored vote decided its request, no request has two, and a vote never conflicts. */
  lemma VotesDecideOnce(ops: seq<Op>, voteId: string, vote: Vote, reason: Option<string>)
    requires vote.decision in {Approved, Denied}
    ensures forall v :: v in Run(ops).votes ==>
              var id := Run(ops).votes[v].approvalId;
              id in Run(ops).requests && Terminal(Run(ops).requests[id].state)
    ensures var votes := Run(ops).votes;
            forall v, w :: v in votes && w in votes && votes[v].approvalId == votes[w].approvalId ==> v == w
    ensures RecordVote(Run(ops), voteId, vote, reason) != Raised(VoteConflict)
  {
    hide Run;
    hide RecordVote;
    VoteGood(Run(ops), voteId, vote, reason);
  }

  // -------------------------------------------------------------- root turns

  lemma AtMostOne<T>(a: set<T>)
    requires forall x, y :: x in a && y in a ==> x == y
    ensures |a| <= 1
  {
    if a != {} {
      var x :| x in a;
      assert a == {x};
    }
  }

  /** The generation lookup of a linked call never finds two root turns, nor one turn twice. */
  lemma GenerationLookupIsUnambiguous(ops: seq<Op>, jobId: string, toolCallId: string, nonce: string, tenant: string)
    ensures |Linking(Run(ops), jobId, toolCallId, nonce, tenant)| <= 1
    ensures var turns := Run(ops).turns;
            forall k, i, j :: k in turns && 0 <= i < j < |turns[k].refs| ==> turns[k].refs[i] != turns[k].refs[j]
  {
    hide Run;
    AtMostOne(Linking(Run(ops), jobId, toolCallId, nonce, tenant));
  }

  /** The authority a turn was admitted with outlives every later step. */
  lemma TurnsKeepAuthority(ops: seq<Op>, i: nat, j: nat, k: TurnKey)
    requires i <= j <= |ops| && k in Run(ops[..i]).turns
    ensures k in Run(ops[..j]).turns
    ensures var t, t' := Run(ops[..i]).turns[k], Run(ops[..j]).turns[k];
            t'.(refs := t.refs) == t && t.refs <= t'.refs
  {
    hide Run;
    hide Inv;
    RunEvolves(ops, i, j);
    assert TurnEvolves(Run(ops[..i]).turns[k], Run(ops[..j]).turns[k]);
  }

  // ---------------------------------------------------------------- re-issue

  function ExpireAll(requests: map<string, Request>, superseded: set<string>, reason: string): map<string, Request> {
    map id | id in requests :: if id in superseded then ExpiredFor(requests[id], reason) else requests[id]
  }

  /** A park that no row refuses replaces the colliding rows and expires what it supersedes. */
  lemma ParkCommits(s: Ledger, p: Payload, generation: Option<string>, nonce: string, r: Request)
    requires BindingsOwned(s) && ValidPayload(p) && p.approvalId in s.requests
    requires forall b :: b in Colliding(s, p.approvalId, p.jobId, p.toolCallId) ==> !RowRefuses(s, b, p, generation)
    requires nonce == PublishedNonce(s, p, generation)
    requires r == s.requests[p.approvalId].(toolCallId := p.toolCallId)
    requires s.requests[p.approvalId].toolCallId == p.toolCallId || Undecided(s.requests[p.approvalId])
    requires Agrees(NewBinding(p, nonce, r.argsHash), r)
    ensures p.approvalId !in SupersededIds(s, p, generation)
    ensures Park(s, p, generation) == Done(Parked(
              s.(bindings := s.bindings - Colliding(s, p.approvalId, p.jobId,
                                                    p.toolCallId) + {NewBinding(p, nonce, r.argsHash)},
                 requests := ExpireAll(s.requests[p.approvalId := r], SupersededIds(s, p, generation),
                                       REISSUED_AS + p.approvalId)),
              nonce))
  {
    hide RowRefuses;
    hide PublishedNonce;
    hide OtherGeneration;
    hide Colliding;
    hide ValidPayload;
    var gone := SupersededIds(s, p, generation);
    var requests := map id | id in s.requests ::
                      if id == p.approvalId then r
                      else if id in gone then ExpiredFor(s.requests[id], REISSUED_AS + p.approvalId)
                      else s.requests[id];
    assert requests == ExpireAll(s.requests[p.approvalId := r], gone, REISSUED_AS + p.approvalId);
  }

  /** What the park inside a re-issue does: the predecessor's row is the one it collides with. */
  lemma ReissueParks(s: Ledger, q: Reissue, m: Minted, b: Binding)
    requires Inv(s) && BindingsOwned(s) && Unused(s, q, m)
    requires q.approvalId in s.requests && TurnKey(q.jobId, q.turnId) in s.turns
    requires ReadBinding(s, q.jobId, q.toolCallId, q.nonce, q.tenant) == Done(b)
    ensures b in s.bindings && ForCall(b, q.jobId, q.toolCallId) && b.nonce == q.nonce && b.tenant == q.tenant
    ensures b.approvalId != m.approvalId
    ensures Colliding(WithSuccessor(s, q, m), m.approvalId, q.jobId, q.toolCallId) == {b}
  {
    var w := WithSuccessor(s, q, m);
    assert b in RowsForCall(s, q.jobId, q.toolCallId);
    forall c | c in s.bindings
      ensures c.approvalId != m.approvalId
      ensures ForCall(c, q.jobId, q.toolCallId) ==> c == b
    {
    }
  }

  lemma OnlyRow(s: Ledger, b: Binding)
    requires Inv(s) && b in s.bindings
    ensures RowsForCall(s, b.jobId, b.toolCallId) == {b}
  {
    assert b in RowsForCall(s, b.jobId, b.toolCallId);
  }

  lemma InvRow(s: Ledger, b: Binding)
    requires Inv(s) && b in s.bindings
    ensures b.approvalId in s.requests && Agrees(b, s.requests[b.approvalId])
  {
  }

  lemma KeptNonce(w: Ledger, p: Payload, generation: Option<string>, b: Binding)
    requires BindingsOwned(w) && Colliding(w, p.approvalId, p.jobId, p.toolCallId) == {b}
    requires RowKeepsNonce(w, b, p, generation)
    ensures PublishedNonce(w, p, generation) == b.nonce
  {
    assert b in Colliding(w, p.approvalId, p.jobId, p.toolCallId);
    var kept := set c | c in w.bindings && RowKeepsNonce(w, c, p, generation);
    assert b in kept;
    assert kept <= Colliding(w, p.approvalId, p.jobId, p.toolCallId);
  }

  lemma LinkEffect(s: Ledger, k: TurnKey, toolCallId: string, nonce: string, tenant: string)
    requires LinkTurn(s, k, toolCallId, nonce, tenant).Done?
    ensures var s' := LinkTurn(s, k, toolCallId, nonce, tenant).value;
            && s' == s.(turns := s'.turns)
            && k in s.turns && k in s'.turns && Ref(toolCallId, nonce) in s'.turns[k].refs
            && s'.turns[k].(refs := s.turns[k].refs) == s.turns[k]
            && forall j :: j in s.turns && j != k ==> j in s'.turns && s'.turns[j] == s.turns[j]
  {
  }

  lemma OnlyLink(s: Ledger, k: TurnKey, toolCallId: string, nonce: string, tenant: string)
    requires Inv(s) && k in s.turns && s.turns[k].tenant == tenant && Ref(toolCallId, nonce) in s.turns[k].refs
    ensures Linking(s, k.jobId, toolCallId, nonce, tenant) == {k}
  {
    assert k in Linking(s, k.jobId, toolCallId, nonce, tenant);
  }

  lemma FindsSuccessor(s: Ledger, q: Reissue, c: Binding, k: TurnKey)
    requires RowsForCall(s, q.jobId, q.toolCallId) == {c} && c.tenant == q.tenant
    requires Linking(s, q.jobId, q.toolCallId, c.nonce, q.tenant) == {k}
    requires q.approvalId in s.requests && s.requests[q.approvalId].reason == Some(REISSUED_AS + c.approvalId)
    ensures SuccessorOf(s, s.requests[q.approvalId], q) == Some(Reissued(s, c.approvalId, c.nonce, k.turnId, false))
  {
    hide Linking;
    var rows := set b | b in RowsForCall(s, q.jobId, q.toolCallId) && b.tenant == q.tenant;
    assert c in rows;
    assert AnyRow(rows).value == c;
    assert TheTurn({k}) == k;
  }

  // ------------------------------------------------------- fences and grants

  /** Once fenced, an approval's grants are revoked, none is minted and none is found. */
  lemma FencesHold(ops: seq<Op>, i: nat, j: nat, id: string)
    requires i <= j <= |ops| && id in Run(ops[..i]).fences
    ensures var s := Run(ops[..j]);
            && id in s.fences
            && (forall g :: g in s.grants && s.grants[g].via == id ==> s.grants[g].revoked)
            && (forall g, grant: Grant :: grant.via == id ==> CreateGrant(s, g, grant) == Raised(Fenced))
            && (forall user, tool, scope, constraint, mode, key, now, g ::
                  g in Findable(s, user, tool, scope, constraint, mode, key, now) ==> s.grants[g].via != id)
  {
    RunEvolves(ops, i, j);
    hide Run;
    var s := Run(ops[..j]);
    forall g | g in s.grants && s.grants[g].via == id
      ensures s.grants[g].revoked
    {
      assert GrantOk(s, s.grants[g]);
    }
  }

  /** A revoked grant stays revoked, so it is never found again. */
  lemma RevocationsHold(ops: seq<Op>, i: nat, j: nat, g: string)
    requires i <= j <= |ops| && g in Run(ops[..i]).grants && Run(ops[..i]).grants[g].revoked
    ensures forall user, tool, scope, constraint, mode, key, now ::
              g !in Findable(Run(ops[..j]), user, tool, scope, constraint, mode, key, now)
  {
    hide Run;
    hide Inv;
    RunEvolves(ops, i, j);
    assert GrantEvolves(Run(ops[..i]).grants[g], Run(ops[..j]).grants[g]);
  }

  /** An exact lookup returns only grants minted for its key. */
  lemma ExactLookupMatchesKey(ops: seq<Op>, user: string, tool: string, scope: string, constraint: Constraint,
                              key: Option<string>, now: int, g: string)
    requires g in Findable(Run(ops), user, tool, scope, constraint, Exact, key, now)
    ensures key == Some(Run(ops).grants[g].scope)
  {
    hide Run;
    assert GrantOk(Run(ops), Run(ops).grants[g]);
  }

  /** No request with reuse disabled ever has a grant, at any later point of the run. */
  lemma DisabledNeverGranted(ops: seq<Op>, i: nat, j: nat, id: string)
    requires i <= j <= |ops| && id in Run(ops[..i]).requests && Run(ops[..i]).requests[id].reuseMode.Disabled?
    ensures forall g :: g in Run(ops[..j]).grants ==> Run(ops[..j]).grants[g].via != id
    ensures id in Run(ops[..j]).requests && !ReuseScopeAuthorized(Run(ops[..j]).requests[id])
  {
    RunEvolves(ops, i, j);
    hide Run;
    var s := Run(ops[..j]);
    assert forall g :: g in s.grants ==> GrantOk(s, s.grants[g]);
  }
}
