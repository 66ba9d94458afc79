/** Captured calls and root turns in every reachable ledger: exactly when a call is bound,
    parked over another or linked from a turn, and exactly how a bound call leaves. */
module CaptureRuns {
  import opened Json
  import opened ApprovalPolicy
  import opened ApprovalLedger
  import opened LedgerRuns
  import opened LedgerGuarantees
  import opened LedgerProvenance
  import opened Reissues
  import opened OriginRuns

  predicate Filled(p: Payload) {
    && p.approvalId != "" && p.jobId != "" && p.toolCallId != "" && p.nonce != "" && p.tenant != "" && p.toolName != ""
    && p.operands.credential != Some("")
  }

  /** The row is the payload's own capture, whatever became of it. */
  predicate IsCapture(b: Binding, p: Payload) {
    Carries(b, p) && b.approvalId == p.approvalId && b.nonce == p.nonce
  }

  /** The row belongs to the payload's approval or to its call. */
  predicate InTheWay(b: Binding, p: Payload) {
    b.approvalId == p.approvalId || (b.jobId == p.jobId && b.toolCallId == p.toolCallId)
  }

  /** A first bind is recorded if and only if its request names the same user, call and tool and
      neither approval nor call is bound otherwise; a repeat of the same capture changes nothing. */
  lemma RecordIff(ops: seq<Op>, p: Payload)
    ensures var s := Run(ops); var o := RecordBinding(s, p);
            && (o.Done? <==>
                  && Filled(p) && p.approvalId in s.requests
                  && s.requests[p.approvalId].userId == p.tenant && s.requests[p.approvalId].toolName == p.toolName
                  && s.requests[p.approvalId].toolCallId == p.toolCallId
                  && forall b :: b in s.bindings && InTheWay(b, p) ==> IsCapture(b, p))
            && (o.Done? ==>
                  o.value == if exists b :: b in s.bindings && InTheWay(b, p) then s
                             else s.(bindings := s.bindings + {Binding(
                                     p.approvalId, p.jobId, p.toolCallId, p.nonce, p.tenant, p.toolName, p.operands,
                                     s.requests[p.approvalId].argsHash, Unclaimed)}))
  {
    hide Run;
    var s := Run(ops);
    var rows := Colliding(s, p.approvalId, p.jobId, p.toolCallId);
    assert forall b :: b in rows <==> b in s.bindings && InTheWay(b, p);
    forall b, c | b in rows && c in rows && IsCapture(b, p)
      ensures b == c
    {
      assert b.approvalId == c.approvalId || ForCall(b, c.jobId, c.toolCallId);
    }
    forall b | b in rows
      ensures b.approvalId in s.requests && b.argsHash == s.requests[b.approvalId].argsHash
    {
      InvRow(s, b);
    }
    hide Inv;
    hide Colliding;
    if rows != {} {
      var row := AnyRow(rows).value;
    }
  }

  // -------------------------------------------------------------------- parks

  /** A bound call may make way for a park: the same tenant's call of the same tool, unclaimed,
      of this very approval while undecided, of a refused one, or of another generation's. */
  predicate MakesWay(s: Ledger, row: Binding, p: Payload, generation: Option<string>)
    requires row.approvalId in s.requests
  {
    var r := s.requests[row.approvalId];
    && row.tenant == p.tenant && row.toolName == p.toolName && row.execution.Unclaimed?
    && if row.approvalId == p.approvalId then r.state in {Created, PendingUser}
       else
         || r.state in {Denied, AutoDenied, Expired}
         || LeavesGeneration(s, row, p, generation)
  }

  /** An open or approved approval of another generation, which the park expires. */
  predicate LeavesGeneration(s: Ledger, row: Binding, p: Payload, generation: Option<string>)
    requires row.approvalId in s.requests
  {
    && row.approvalId != p.approvalId && s.requests[row.approvalId].state in {Created, PendingUser, Approved}
    && generation.Some? && FromOtherGeneration(s, row, generation.value)
  }

  lemma GenerationIff(s: Ledger, row: Binding, generation: string)
    requires Inv(s) && row in s.bindings
    ensures OtherGeneration(s, row, generation) <==> FromOtherGeneration(s, row, generation)
  {
    var turns := Linking(s, row.jobId, row.toolCallId, row.nonce, row.tenant);
    AtMostOne(turns);
    if FromOtherGeneration(s, row, generation) {
      var k :| k in s.turns && k.jobId == row.jobId && s.turns[k].tenant == row.tenant
               && Ref(row.toolCallId, row.nonce) in s.turns[k].refs && s.turns[k].generation != generation;
      assert k in turns;
      assert forall j :: j in turns ==> j == k;
      assert turns == {k};
    } else if |turns| == 1 {
      var k :| k in turns;
    }
  }

  lemma MakesWayIff(s: Ledger, row: Binding, p: Payload, generation: Option<string>)
    requires Inv(s) && row in s.bindings && row.approvalId in s.requests && p.approvalId in s.requests
    ensures MakesWay(s, row, p, generation) <==> !RowRefuses(s, row, p, generation)
    ensures RowSuperseded(s, row, p, generation) <==> LeavesGeneration(s, row, p, generation)
  {
    if generation.Some? {
      GenerationIff(s, row, generation.value);
    }
    hide Inv;
    hide OtherGeneration;
    hide FromOtherGeneration;
  }

  /** A park commits if and only if its request names the same user and tool, and the same call
      unless still undecided, and every bound call in its way makes way. */
  lemma ParkIff(ops: seq<Op>, p: Payload, generation: Option<string>)
    ensures var s := Run(ops);
            Park(s, p, generation).Done? <==>
              && Filled(p) && p.approvalId in s.requests
              && var r := s.requests[p.approvalId];
                 && r.userId == p.tenant && r.toolName == p.toolName
                 && (r.toolCallId == p.toolCallId || r.state in {Created, PendingUser})
                 && forall b :: b in s.bindings && InTheWay(b, p) ==> MakesWay(s, b, p, generation)
  {
    hide Run;
    var s := Run(ops);
    if p.approvalId in s.requests {
      forall b | b in s.bindings && InTheWay(b, p)
        ensures MakesWay(s, b, p, generation) <==> !RowRefuses(s, b, p, generation)
        ensures b in Colliding(s, p.approvalId, p.jobId, p.toolCallId)
      {
        MakesWayIff(s, b, p, generation);
      }
      hide Inv;
      hide MakesWay;
      hide RowRefuses;
      hide PublishedNonce;
      hide SupersededIds;
    }
  }

  /** What a park that commits leaves: the call is bound once, to the payload's approval with
      the payload's operands, under its old nonce unless it left another generation; every
      approval that made way is expired in its favour, and no other request is decided. */
  lemma ParkLeaves(ops: seq<Op>, p: Payload, generation: Option<string>)
    requires Park(Run(ops), p, generation).Done?
    ensures var s, s' := Run(ops), Park(Run(ops), p, generation).value.ledger;
            var nonce := Park(Run(ops), p, generation).value.nonce;
            && (exists b :: Carries(b, p) && b.approvalId == p.approvalId && b.nonce == nonce && b.execution.Unclaimed?
                            && s'.bindings == (set c | c in s.bindings && !InTheWay(c, p)) + {b})
            && (forall c | c in s.bindings && ForCall(c, p.jobId, p.toolCallId) && c.approvalId in s.requests ::
                  !LeavesGeneration(s, c, p, generation) ==> nonce == c.nonce)
            && (nonce != p.nonce ==>
                  exists c :: c in s.bindings && ForCall(c, p.jobId, p.toolCallId) && nonce == c.nonce)
            && (s'.turns, s'.votes, s'.grants, s'.fences) == (s.turns, s.votes, s.grants, s.fences)
            && s'.requests.Keys == s.requests.Keys
            && forall id :: id in s.requests ==> RequestAfterPark(s, p, generation, id, s'.requests[id])
  {
    hide Run;
    var s := Run(ops);
    ParkRows(s, p, generation);
    ParkedNonce(s, p, generation);
    var s' := Park(s, p, generation).value.ledger;
    assert s'.requests.Keys == s.requests.Keys by {
      hide Inv;
      hide Colliding;
      hide RowRefuses;
      hide SupersededIds;
      hide PublishedNonce;
    }
    forall id | id in s.requests
      ensures RequestAfterPark(s, p, generation, id, s'.requests[id])
    {
      ParkRequest(s, p, generation, id);
    }
    hide Park;
    hide Inv;
  }

  /** The request a park leaves: its own takes the call's id, one that made way from another
      generation is expired in its favour, and every other is as it was. */
  predicate RequestAfterPark(s: Ledger, p: Payload, generation: Option<string>, id: string, r': Request)
    requires id in s.requests
  {
    var r := s.requests[id];
    if id == p.approvalId then r' == r.(toolCallId := p.toolCallId)
    else if exists b :: b in s.bindings && b.approvalId == id && InTheWay(b, p) && LeavesGeneration(s, b, p, generation)
    then r' == r.(state := Expired, version := r.version + 1, decision := Some(Expired),
                  reason := Some("approval policy generation changed; re-issued as " + p.approvalId))
    else r' == r
  }

  lemma SupersededIff(s: Ledger, p: Payload, generation: Option<string>, id: string)
    requires Inv(s) && BindingsOwned(s) && p.approvalId in s.requests
    ensures id in SupersededIds(s, p, generation) <==>
              exists b :: b in s.bindings && b.approvalId == id && InTheWay(b, p)
                          && LeavesGeneration(s, b, p, generation)
  {
    forall b | b in s.bindings
      ensures RowSuperseded(s, b, p, generation) <==> LeavesGeneration(s, b, p, generation)
    {
      MakesWayIff(s, b, p, generation);
    }
    hide RowSuperseded;
    hide LeavesGeneration;
    hide Inv;
  }

  lemma ParkRequest(s: Ledger, p: Payload, generation: Option<string>, id: string)
    requires Inv(s) && BindingsOwned(s) && Park(s, p, generation).Done? && id in s.requests
    ensures id in Park(s, p, generation).value.ledger.requests
    ensures RequestAfterPark(s, p, generation, id, Park(s, p, generation).value.ledger.requests[id])
  {
    SupersededIff(s, p, generation, id);
    hide Inv;
    hide SupersededIds;
    hide RowRefuses;
    hide PublishedNonce;
    hide LeavesGeneration;
    hide Colliding;
  }

  lemma ParkRows(s: Ledger, p: Payload, generation: Option<string>)
    requires BindingsOwned(s) && Park(s, p, generation).Done?
    ensures var x := Park(s, p, generation).value;
            && (exists b :: Carries(b, p) && b.approvalId == p.approvalId && b.nonce == x.nonce
                            && b.execution.Unclaimed?
                            && x.ledger.bindings == (set c | c in s.bindings && !InTheWay(c, p)) + {b})
            && (x.ledger.turns, x.ledger.votes, x.ledger.grants, x.ledger.fences)
               == (s.turns, s.votes, s.grants, s.fences)
  {
    hide RowRefuses;
    hide SupersededIds;
    hide PublishedNonce;
    var x := Park(s, p, generation).value;
    var b := NewBinding(p, x.nonce, s.requests[p.approvalId].argsHash);
    assert x.ledger.bindings == s.bindings - Colliding(s, p.approvalId, p.jobId, p.toolCallId) + {b};
    assert s.bindings - Colliding(s, p.approvalId, p.jobId, p.toolCallId)
        == set c | c in s.bindings && !InTheWay(c, p);
  }

  lemma ParkedNonce(s: Ledger, p: Payload, generation: Option<string>)
    requires Inv(s) && BindingsOwned(s) && Park(s, p, generation).Done?
    ensures var nonce := Park(s, p, generation).value.nonce;
            && (forall c | c in s.bindings && ForCall(c, p.jobId, p.toolCallId) ::
                  !LeavesGeneration(s, c, p, generation) ==> nonce == c.nonce)
            && (nonce != p.nonce ==>
                  exists c :: c in s.bindings && ForCall(c, p.jobId, p.toolCallId) && nonce == c.nonce)
  {
    assert Park(s, p, generation).value.nonce == PublishedNonce(s, p, generation) by {
      hide RowRefuses;
      hide SupersededIds;
      hide PublishedNonce;
      hide Colliding;
    }
    hide Park;
    var kept := set b | b in s.bindings && RowKeepsNonce(s, b, p, generation);
    forall c | c in s.bindings && ForCall(c, p.jobId, p.toolCallId) && !LeavesGeneration(s, c, p, generation)
      ensures PublishedNonce(s, p, generation) == c.nonce
    {
      MakesWayIff(s, c, p, generation);
      assert c in kept;
      OnlyRow(s, c);
      assert AnyRow(kept).value in RowsForCall(s, p.jobId, p.toolCallId);
    }
  }

  // ---------------------------------------------------------- links and turns

  /** A call is linked from a turn if and only if the turn is the tenant's and either the call is
      bound to the tenant under this nonce, linked by no other turn of the job, or not bound at
      all, requested by the tenant in this job, and named by no other turn of the job. */
  lemma LinkIff(ops: seq<Op>, k: TurnKey, toolCallId: string, nonce: string, tenant: string)
    ensures var s := Run(ops); var o := LinkTurn(s, k, toolCallId, nonce, tenant);
            && (o.Done? <==>
                  && k in s.turns && s.turns[k].tenant == tenant
                  && if (exists b :: b in s.bindings && ForCall(b, k.jobId, toolCallId))
                     then (forall b :: b in s.bindings && ForCall(b, k.jobId, toolCallId) ==>
                             b.tenant == tenant && b.nonce == nonce)
                          && !(exists j :: OtherTurn(s, k, j) && Ref(toolCallId, nonce) in s.turns[j].refs)
                     else (exists id :: id in s.requests && s.requests[id].sessionId == k.jobId
                                        && s.requests[id].toolCallId == toolCallId && s.requests[id].userId == tenant)
                          && !(exists j, n :: OtherTurn(s, k, j) && Ref(toolCallId, n) in s.turns[j].refs))
            && (o.Done? ==>
                  o.value == s.(turns := s.turns[k := s.turns[k].(
                                                      refs := if Ref(toolCallId, nonce) in s.turns[k].refs
                                                              then s.turns[k].refs
                                                              else s.turns[k].refs + [Ref(toolCallId, nonce)])]))
  {
    hide Run;
    var s := Run(ops);
    RowIsAny(s, k.jobId, toolCallId);
    hide Inv;
    hide RowsForCall;
    ElsewhereIff(s, k, toolCallId);
    hide LinkedElsewhere;
    hide OtherTurn;
    if k in s.turns {
      assert s.turns[k := s.turns[k].(refs := s.turns[k].refs)] == s.turns;
    }
  }

  /** The lookup by call finds the one row of the call. */
  lemma RowIsAny(s: Ledger, jobId: string, toolCallId: string)
    requires Inv(s)
    ensures forall b :: b in s.bindings && ForCall(b, jobId, toolCallId) ==>
              AnyRow(RowsForCall(s, jobId, toolCallId)) == Some(b)
    ensures AnyRow(RowsForCall(s, jobId, toolCallId)).Some? ==>
              exists b :: b in s.bindings && ForCall(b, jobId, toolCallId)
  {
    forall b | b in s.bindings && ForCall(b, jobId, toolCallId)
      ensures AnyRow(RowsForCall(s, jobId, toolCallId)) == Some(b)
    {
      OnlyRow(s, b);
    }
  }

  /** A turn is recorded if and only if it is new or was admitted exactly so; a recorded one
      is left as it is. */
  lemma TurnIff(ops: seq<Op>, k: TurnKey, tenant: string, authority: string, generation: string)
    ensures var s := Run(ops); var o := RecordTurn(s, k, tenant, authority, generation);
            && (o.Done? <==>
                  (k in s.turns ==> exists refs :: s.turns[k] == RootTurn(tenant, authority, generation, refs)))
            && (o.Done? ==>
                  o.value == if k in s.turns then s
                             else s.(turns := s.turns[k := RootTurn(tenant, authority, generation, [])]))
  {
    hide Run;
    var s := Run(ops);
    if k in s.turns {
      assert s.turns[k] == RootTurn(s.turns[k].tenant, s.turns[k].authority, s.turns[k].generation, s.turns[k].refs);
    }
  }

  predicate OtherTurn(s: Ledger, k: TurnKey, j: TurnKey) {
    j in s.turns && j.jobId == k.jobId && j != k
  }

  lemma ElsewhereIff(s: Ledger, k: TurnKey, toolCallId: string)
    ensures forall nonce :: (LinkedElsewhere(s, k, toolCallId, Some(nonce)) <==>
                               exists j :: OtherTurn(s, k, j) && Ref(toolCallId, nonce) in s.turns[j].refs)
    ensures LinkedElsewhere(s, k, toolCallId, None) <==>
              exists j, n :: OtherTurn(s, k, j) && Ref(toolCallId, n) in s.turns[j].refs
  {
    assert forall j: TurnKey :: j.jobId == k.jobId ==> (j.turnId != k.turnId <==> j != k);
    assert forall r: Ref :: r == Ref(r.toolCallId, r.nonce);
    if LinkedElsewhere(s, k, toolCallId, None) {
      var j :| j in s.turns && j.jobId == k.jobId && j.turnId != k.turnId
               && exists ref :: ref in s.turns[j].refs && HoldsCall(ref, toolCallId, None);
      var ref :| ref in s.turns[j].refs && HoldsCall(ref, toolCallId, None);
      assert OtherTurn(s, k, j) && Ref(toolCallId, ref.nonce) in s.turns[j].refs;
    }
  }

  // -------------------------------------------------------------- bound calls

  /** Exactly which calls take a bound call's row away: a park it stands in the way of, the
      re-issue that names it, the plan that replaces its approval unclaimed, and the claim and
      completion of this very capture. */
  predicate Takes(s: Ledger, op: Op, b: Binding) {
    match op
    case OpPark(p, _) => InTheWay(b, p) && b.execution.Unclaimed?
    case OpReissue(q, _) => Captured(s, q, b) && b.execution.Unclaimed?
    case OpSupersede(predecessor, _, _) => b.approvalId == predecessor && b.execution.Unclaimed?
    case OpClaim(c, _, _) => SameCapture(c, b) && b.execution.Unclaimed?
    case OpComplete(c, version, token, _) => SameCapture(c, b) && b.execution == Claimed(token, version)
    case _ => false
  }

  lemma StepTakes(s: Ledger, op: Op, b: Binding)
    requires Inv(s) && BindingsOwned(s) && b in s.bindings && b !in Apply(s, op).bindings
    ensures Takes(s, op, b)
  {
    if op.OpPark? {
      ParkTakes(s, op.payload, op.generation, b);
      hide Park;
    } else if op.OpReissue? {
      ReissueTakes(s, op.request_, op.minted, b);
      hide ReissueParked;
    } else if op.OpClaim? || op.OpComplete? {
      ExecutionTakes(s, op, b);
      hide Step;
    } else if op.OpRecord? || op.OpSupersede? {
      PlainTakes(s, op, b);
      hide Step;
    } else {
      OtherStepKeepsRows(s, op);
      hide Step;
      assert false;
    }
  }

  lemma PlainTakes(s: Ledger, op: Op, b: Binding)
    requires BindingsOwned(s) && (op.OpRecord? || op.OpSupersede?) && b in s.bindings && b !in Step(s, op).bindings
    ensures Takes(s, op, b)
  {
    hide Colliding;
    hide RowsForApproval;
  }

  lemma ExecutionTakes(s: Ledger, op: Op, b: Binding)
    requires BindingsOwned(s) && (op.OpClaim? || op.OpComplete?) && b in s.bindings && b !in Step(s, op).bindings
    ensures Takes(s, op, b)
  {
    if VerifyAttempt(s, op.binding).Done? {
      VerifiedIsStored(s, op.binding);
    }
    hide VerifyAttempt;
  }

  lemma ReissueTakes(s: Ledger, q: Reissue, m: Minted, b: Binding)
    requires Inv(s) && BindingsOwned(s) && Unused(s, q, m) && ReissueParked(s, q, m).Done?
    requires b in s.bindings && b !in ReissueParked(s, q, m).value.ledger.bindings
    ensures Captured(s, q, b) && b.execution.Unclaimed?
  {
    hide ReissueParked;
    if ReissueParked(s, q, m).value.created {
      var a := CreatedFrom(s, q, m);
      hide Inv;
      hide FromOtherGeneration;
      hide Linked;
      hide ValidPayload;
    } else {
      NotCreatedIsUnchanged(s, q, m);
    }
  }

  lemma ParkTakes(s: Ledger, p: Payload, generation: Option<string>, b: Binding)
    requires BindingsOwned(s) && Park(s, p, generation).Done?
    requires b in s.bindings && b !in Park(s, p, generation).value.ledger.bindings
    ensures InTheWay(b, p) && b.execution.Unclaimed?
  {
    hide SupersededIds;
    hide PublishedNonce;
    assert b in Colliding(s, p.approvalId, p.jobId, p.toolCallId);
    assert !RowRefuses(s, b, p, generation);
  }

  /** In every run a captured call's row goes only to a call that may take it. */
  lemma RowsLeaveOnly(ops: seq<Op>, i: nat, b: Binding)
    requires i < |ops| && b in Run(ops[..i]).bindings && b !in Run(ops[..i + 1]).bindings
    ensures Takes(Run(ops[..i]), ops[i], b)
  {
    RunStep(ops, i);
    hide Run;
    hide Apply;
    hide Inv;
    StepTakes(Run(ops[..i]), ops[i], b);
  }

  /** A plan is replaced if and only if its request was not approved and, while the plan is
      pending, its call is not claimed; exactly its unclaimed row goes, and its open request
      expires. */
  lemma ReplacedIff(ops: seq<Op>, predecessor: string, successor: string, pending: bool)
    ensures var s := Run(ops); var o := Supersede(s, predecessor, successor, pending);
            && (o.Done? <==>
                  && (pending ==>
                        forall b :: b in s.bindings && b.approvalId == predecessor ==> b.execution.Unclaimed?)
                  && (predecessor in s.requests ==> s.requests[predecessor].state !in {Approved, AutoApproved}))
            && (o.Done? ==>
                  && (forall b :: b in o.value.bindings <==>
                        b in s.bindings && (b.approvalId != predecessor || !b.execution.Unclaimed?))
                  && o.value == s.(bindings := o.value.bindings, requests := o.value.requests)
                  && o.value.requests.Keys == s.requests.Keys
                  && (forall id :: id in s.requests ==>
                        (o.value.requests[id] != s.requests[id] <==>
                           id == predecessor && s.requests[id].state in {Created, PendingUser})))
  {
    hide Run;
    var s := Run(ops);
    hide Inv;
    assert forall b :: b in RowsForApproval(s, predecessor) <==> b in s.bindings && b.approvalId == predecessor;
    hide RowsForApproval;
  }

  // ---------------------------------------------------------------- re-issues

  /** In any reachable ledger, with drawn ids that are not blank: the call is re-issued if and
      only if it was not re-issued already, its turn and capture are the tenant's, it may leave
      its approval, and no turn of the job links the nonce it would get; the ledger is then
      exactly the one described by `ReissuedLedger`. */
  lemma ReissueIff(ops: seq<Op>, q: Reissue, m: Minted, b: Binding)
    requires Unused(Run(ops), q, m) && m.approvalId != "" && m.nonce != "" && Captured(Run(ops), q, b)
    ensures var s := Run(ops); var o := ReissueParked(s, q, m);
            && (o.Done? && o.value.created <==>
                  && (forall a, k :: !AlreadyIssued(s, q, a, k))
                  && TurnKey(q.jobId, q.turnId) in s.turns && s.turns[TurnKey(q.jobId, q.turnId)].tenant == q.tenant
                  && Movable(s, q, b) && !Linked(s, q.jobId, q.toolCallId, NonceAfter(s, m, b)))
            && (o.Done? && o.value.created ==>
                  o.value == Reissued(ReissuedLedger(s, q, m, b), m.approvalId, NonceAfter(s, m, b), m.turnId, true))
  {
    CapturesWereRecorded(ops, b);
    hide Run;
    var s := Run(ops);
    ReissueOutcome(s, q, m);
    assert ValidPayload(SuccessorPayload(q, m, b));
    hide Inv;
    hide ReissueParked;
    hide Movable;
    hide Linked;
    hide AlreadyIssued;
    hide ValidPayload;
  }
}
