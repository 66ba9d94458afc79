/** Where every row of a reachable ledger comes from: which call of the run wrote it, and that
    the row still holds what that call carried. */
module OriginRuns {
  import opened Json
  import opened ApprovalPolicy
  import opened ApprovalLedger
  import opened LedgerRuns
  import opened LedgerGuarantees
  import opened LedgerProvenance
  import opened Reissues

  // ---------------------------------------------------------- captured calls

  /** The row holds the payload's call, tenant, tool and operands. */
  predicate Carries(b: Binding, p: Payload) {
    (b.jobId, b.toolCallId, b.tenant, b.toolName, b.operands)
    == (p.jobId, p.toolCallId, p.tenant, p.toolName, p.operands)
  }

  predicate Nonblank(b: Binding) {
    b.jobId != "" && b.toolCallId != "" && b.tenant != "" && b.toolName != "" && b.operands.credential != Some("")
  }

  /** What a call that adds this row carried. */
  predicate AddsRow(s: Ledger, op: Op, b: Binding) {
    match op
    case OpRecord(p) => Carries(b, p) && Nonblank(b) && b.approvalId == p.approvalId && b.nonce == p.nonce
                        && b.execution.Unclaimed?
    case OpPark(p, _) =>
      && Carries(b, p) && Nonblank(b) && b.approvalId == p.approvalId && b.execution.Unclaimed?
      && (b.nonce == p.nonce
          || exists a :: a in s.bindings && ForCall(a, b.jobId, b.toolCallId) && a.nonce == b.nonce)
    case OpReissue(q, m) =>
      b.approvalId == m.approvalId
      && exists a :: a in s.bindings && Captured(s, q, a) && a.execution.Unclaimed? && b.nonce in {m.nonce, a.nonce}
                     && b == a.(approvalId := b.approvalId, nonce := b.nonce, argsHash := b.argsHash)
    case OpClaim(c, version, token) =>
      SameCapture(c, b) && b.execution == Claimed(token, version) && b.(execution := Unclaimed) in s.bindings
    case OpComplete(c, version, token, result) =>
      && SameCapture(c, b) && b.execution == Completed(token, version, result)
      && b.(execution := Claimed(token, version)) in s.bindings
    case _ => false
  }

  lemma ParkAdds(s: Ledger, p: Payload, generation: Option<string>, b: Binding)
    requires BindingsOwned(s) && Park(s, p, generation).Done?
    requires b in Park(s, p, generation).value.ledger.bindings && b !in s.bindings
    ensures AddsRow(s, OpPark(p, generation), b)
  {
    var kept := set c | c in s.bindings && RowKeepsNonce(s, c, p, generation);
    if AnyRow(kept).Some? {
      var a := AnyRow(kept).value;
      assert a in s.bindings && ForCall(a, b.jobId, b.toolCallId) && a.nonce == b.nonce;
    }
    hide RowRefuses;
    hide Colliding;
    hide SupersededIds;
  }

  lemma ReissueAdds(s: Ledger, q: Reissue, m: Minted, b: Binding)
    requires Inv(s) && BindingsOwned(s) && Unused(s, q, m) && ReissueParked(s, q, m).Done?
    requires b in ReissueParked(s, q, m).value.ledger.bindings && b !in s.bindings
    ensures AddsRow(s, OpReissue(q, m), b)
  {
    hide ReissueParked;
    if ReissueParked(s, q, m).value.created {
      var a := CreatedFrom(s, q, m);
      assert b == MovedRow(s, q, m, a);
    } else {
      NotCreatedIsUnchanged(s, q, m);
    }
  }

  lemma StepAddsRow(s: Ledger, op: Op, b: Binding)
    requires Inv(s) && BindingsOwned(s) && b in Apply(s, op).bindings && b !in s.bindings
    ensures AddsRow(s, op, b)
  {
    hide Inv;
    if op.OpPark? {
      hide Park;
      ParkAdds(s, op.payload, op.generation, b);
    } else if op.OpReissue? {
      hide ReissueParked;
      ReissueAdds(s, op.request_, op.minted, b);
    } else if op.OpClaim? || op.OpComplete? {
      VerifiedIsStored(s, op.binding);
      hide VerifyAttempt;
    } else if op.OpRecord? || op.OpSupersede? {
    } else {
      OtherStepKeepsRows(s, op);
      hide Step;
    }
  }

  /** The i-th call captured the call of this row: its job, call, tenant, tool and operands. */
  ghost predicate CapturedAt(ops: seq<Op>, i: nat, b: Binding) {
    i < |ops| && (ops[i].OpRecord? || ops[i].OpPark?) && Carries(b, ops[i].payload)
  }

  /** The row's approval is the one its capture named, or one a re-issue drew. */
  ghost predicate ApprovalTraced(ops: seq<Op>, i: nat, b: Binding)
    requires CapturedAt(ops, i, b)
  {
    b.approvalId == ops[i].payload.approvalId
    || exists k :: i < k < |ops| && ops[k].OpReissue? && ops[k].minted.approvalId == b.approvalId
  }

  /** The operands behind every approval are the captured ones: each row of a reachable ledger
      holds the call, tenant, tool and operands that some record or park of the run carried, for
      the approval it named or one a later re-issue drew. */
  lemma {:induction false} CapturesWereRecorded(ops: seq<Op>, b: Binding)
    requires b in Run(ops).bindings
    ensures exists i :: CapturedAt(ops, i, b) && ApprovalTraced(ops, i, b)
    ensures Nonblank(b)
    decreases |ops|
  {
    if ops != [] {
      var n := |ops| - 1;
      assert ops[..|ops|] == ops;
      RunStep(ops, n);
      hide Run;
      hide Apply;
      var s := Run(ops[..n]);
      if b in s.bindings {
        CapturesWereRecorded(ops[..n], b);
        var i :| CapturedAt(ops[..n], i, b) && ApprovalTraced(ops[..n], i, b);
        CaptureExtends(ops, n, i, b, b);
      } else {
        StepAddsRow(s, ops[n], b);
        if ops[n].OpRecord? || ops[n].OpPark? {
          assert CapturedAt(ops, n, b) && ApprovalTraced(ops, n, b);
        } else {
          var a := RowBefore(s, ops[n], b);
          CapturesWereRecorded(ops[..n], a);
          var i :| CapturedAt(ops[..n], i, a) && ApprovalTraced(ops[..n], i, a);
          CaptureExtends(ops, n, i, a, b);
        }
      }
    }
  }

  lemma RowBefore(s: Ledger, op: Op, b: Binding) returns (a: Binding)
    requires AddsRow(s, op, b) && !op.OpRecord? && !op.OpPark?
    ensures a in s.bindings && a.(approvalId := b.approvalId, nonce := b.nonce, argsHash := b.argsHash,
                                  execution := b.execution) == b
    ensures a.approvalId == b.approvalId || (op.OpReissue? && op.minted.approvalId == b.approvalId)
  {
    match op
    case OpReissue(q, m) =>
      a :| a in s.bindings && Captured(s, q, a) && a.execution.Unclaimed? && b.nonce in {m.nonce, a.nonce}
           && b == a.(approvalId := b.approvalId, nonce := b.nonce, argsHash := b.argsHash);
    case OpClaim(_, _, _) => a := b.(execution := Unclaimed);
    case OpComplete(_, version, token, _) => a := b.(execution := Claimed(token, version));
  }

  lemma CaptureExtends(ops: seq<Op>, n: nat, i: nat, a: Binding, b: Binding)
    requires n == |ops| - 1 && CapturedAt(ops[..n], i, a) && ApprovalTraced(ops[..n], i, a)
    requires a.(approvalId := b.approvalId, nonce := b.nonce, argsHash := b.argsHash, execution := b.execution) == b
    requires a.approvalId == b.approvalId || (ops[n].OpReissue? && ops[n].minted.approvalId == b.approvalId)
    ensures CapturedAt(ops, i, b) && ApprovalTraced(ops, i, b)
  {
    assert ops[..n][i] == ops[i];
    if a.approvalId == b.approvalId && b.approvalId != ops[i].payload.approvalId {
      var k :| i < k < n && ops[..n][k].OpReissue? && ops[..n][k].minted.approvalId == a.approvalId;
      assert ops[k].OpReissue? && ops[k].minted.approvalId == b.approvalId;
    }
  }

  // ---------------------------------------------------------------- requests

  /** Everything about a request that no later call may change. */
  predicate SameOrigin(a: Request, r: Request) {
    && SameFrozenIdentity(a, r)
    && (a.userId, a.toolName, a.sessionId, a.requestId, a.runId, a.channel)
       == (r.userId, r.toolName, r.sessionId, r.requestId, r.runId, r.channel)
  }

  /** Only creating and re-issuing add a request, with the identity they carry. */
  lemma StepAddsRequest(s: Ledger, op: Op, id: string)
    requires Inv(s) && BindingsOwned(s) && id in Apply(s, op).requests && id !in s.requests
    ensures var r := Apply(s, op).requests[id];
            || (op.OpCreate? && op.id == id && op.request == r)
            || (op.OpReissue? && op.minted.approvalId == id && op.request_.approvalId in s.requests
                && Succeeds(s.requests[op.request_.approvalId], r, op.request_))
  {
    if op.OpReissue? {
      ReissueAddsRequest(s, op.request_, op.minted, id);
      hide ReissueParked;
    } else if !op.OpCreate? {
      OthersAddNoRequest(s, op);
      hide Step;
      assert false;
    }
  }

  lemma ReissueAddsRequest(s: Ledger, q: Reissue, m: Minted, id: string)
    requires Inv(s) && BindingsOwned(s) && id in Apply(s, OpReissue(q, m)).requests && id !in s.requests
    ensures m.approvalId == id && q.approvalId in s.requests
    ensures Succeeds(s.requests[q.approvalId], Apply(s, OpReissue(q, m)).requests[id], q)
  {
    hide ReissueParked;
    if ReissueParked(s, q, m).value.created {
      var b := CreatedFrom(s, q, m);
      hide Inv;
      hide FromOtherGeneration;
      hide Linked;
      hide ValidPayload;
    } else {
      NotCreatedIsUnchanged(s, q, m);
      assert false;
    }
  }

  lemma OthersAddNoRequest(s: Ledger, op: Op)
    requires BindingsOwned(s) && Legal(s, op) && !op.OpCreate? && !op.OpReissue?
    ensures Step(s, op).requests.Keys == s.requests.Keys
  {
    hide Colliding;
    hide RowRefuses;
    hide SupersededIds;
    hide PublishedNonce;
    hide VerifyAttempt;
    hide ValidRequest;
    hide HasVote;
    hide RowsForCall;
    hide LinkedElsewhere;
    hide ValidPayload;
    hide Owns;
  }

  ghost predicate CreatedAt(ops: seq<Op>, i: nat, id: string, r: Request) {
    && i < |ops| && ops[i].OpCreate? && SameOrigin(ops[i].request, r)
    && (ops[i].id == id || exists k :: i < k < |ops| && ops[k].OpReissue? && ops[k].minted.approvalId == id)
  }

  lemma CreationExtends(ops: seq<Op>, n: nat, i: nat, id: string, r: Request, r': Request)
    requires n <= |ops| && CreatedAt(ops[..n], i, id, r) && SameOrigin(r, r')
    ensures CreatedAt(ops, i, id, r')
  {
    assert ops[..n][i] == ops[i];
    if ops[i].id != id {
      var k :| i < k < n && ops[..n][k].OpReissue? && ops[..n][k].minted.approvalId == id;
      assert ops[k] == ops[..n][k];
    }
  }

  lemma OriginKept(ops: seq<Op>, n: nat, id: string)
    requires n <= |ops| && id in Run(ops[..n]).requests && id in Run(ops).requests
    ensures SameOrigin(Run(ops[..n]).requests[id], Run(ops).requests[id])
  {
    assert ops[..|ops|] == ops;
    hide Run;
    RunEvolves(ops, n, |ops|);
    assert RequestEvolves(Run(ops[..n]).requests[id], Run(ops).requests[id]);
  }

  /** Every request has the user, tool, run and frozen identity that some create of the run
      carried, under the id created or one a later re-issue drew. */
  lemma {:induction false} RequestsWereCreated(ops: seq<Op>, id: string)
    requires id in Run(ops).requests
    ensures exists i :: CreatedAt(ops, i, id, Run(ops).requests[id])
    decreases |ops|
  {
    if ops != [] {
      var n := |ops| - 1;
      assert ops[..|ops|] == ops;
      RunStep(ops, n);
      hide Run;
      hide Apply;
      hide Inv;
      hide BindingsOwned;
      hide SameOrigin;
      hide Succeeds;
      var s, r := Run(ops[..n]), Run(ops).requests[id];
      if id in s.requests {
        RequestsWereCreated(ops[..n], id);
        var i :| CreatedAt(ops[..n], i, id, s.requests[id]);
        OriginKept(ops, n, id);
        CreationExtends(ops, n, i, id, s.requests[id], r);
      } else {
        StepAddsRequest(s, ops[n], id);
        if ops[n].OpCreate? {
          CreatedNow(ops, id);
        } else {
          var old_ := ops[n].request_.approvalId;
          RequestsWereCreated(ops[..n], old_);
          var i :| CreatedAt(ops[..n], i, old_, s.requests[old_]);
          ReissuedFrom(ops, i, s.requests[old_], id, r);
        }
      }
    }
  }

  lemma CreatedNow(ops: seq<Op>, id: string)
    requires ops != [] && ops[|ops| - 1].OpCreate? && ops[|ops| - 1].id == id
    ensures CreatedAt(ops, |ops| - 1, id, ops[|ops| - 1].request)
  {
  }

  lemma ReissuedFrom(ops: seq<Op>, i: nat, r: Request, id: string, r': Request)
    requires ops != [] && ops[|ops| - 1].OpReissue? && ops[|ops| - 1].minted.approvalId == id
    requires CreatedAt(ops[..|ops| - 1], i, ops[|ops| - 1].request_.approvalId, r)
    requires Succeeds(r, r', ops[|ops| - 1].request_)
    ensures CreatedAt(ops, i, id, r')
  {
    assert ops[..|ops| - 1][i] == ops[i];
  }

  // -------------------------------------------------------------- root turns

  /** What one step does to a root turn: only recording and re-issuing add one, and only
      linking extends one. */
  lemma StepTurns(s: Ledger, op: Op, k: TurnKey)
    requires Inv(s) && BindingsOwned(s) && k in Apply(s, op).turns
    ensures var s' := Apply(s, op); var t := s'.turns[k];
            if k in s.turns then
              || t == s.turns[k]
              || (op.OpLink? && op.key == k && op.tenant == t.tenant
                  && t == s.turns[k].(refs := s.turns[k].refs + [Ref(op.toolCallId, op.nonce)])
                  && NonceIs(s', k.jobId, op.toolCallId, op.nonce))
            else
              || (op.OpTurn? && op.key == k && t == RootTurn(op.tenant, op.authority, op.policy, []))
              || (op.OpReissue? && Extends(s, s', op.request_, op.minted, k, t))
  {
    if op.OpReissue? {
      ReissueTurns(s, op.request_, op.minted, k);
      hide ReissueParked;
      hide Extends;
    } else if op.OpLink? {
      if LinkTurn(s, op.key, op.toolCallId, op.nonce, op.tenant).Done? {
        LinkChecks(s, op.key, op.toolCallId, op.nonce, op.tenant);
      }
      hide Inv;
      hide RowsForCall;
      hide LinkedElsewhere;
      hide NonceIs;
    } else if !op.OpTurn? && Legal(s, op) {
      OthersKeepTurns(s, op);
      hide Step;
    }
  }

  lemma OthersKeepTurns(s: Ledger, op: Op)
    requires BindingsOwned(s) && Legal(s, op) && !op.OpTurn? && !op.OpLink? && !op.OpReissue?
    ensures Step(s, op).turns == s.turns
  {
    hide Colliding;
    hide RowRefuses;
    hide SupersededIds;
    hide PublishedNonce;
    hide VerifyAttempt;
    hide ValidRequest;
    hide HasVote;
    hide ValidPayload;
    hide Owns;
  }

  /** Whatever row the call has carries this nonce. */
  predicate NonceIs(s: Ledger, jobId: string, toolCallId: string, nonce: string) {
    forall b :: b in s.bindings && ForCall(b, jobId, toolCallId) ==> b.nonce == nonce
  }

  /** The successor's turn: the original turn's tenant and authority under the new generation. */
  ghost predicate Extends(s: Ledger, s': Ledger, q: Reissue, m: Minted, k: TurnKey, t: RootTurn) {
    && k == TurnKey(q.jobId, m.turnId) && TurnKey(q.jobId, q.turnId) in s.turns
    && t.tenant == s.turns[TurnKey(q.jobId, q.turnId)].tenant
    && t.authority == s.turns[TurnKey(q.jobId, q.turnId)].authority
    && t.generation == q.generation
    && exists nonce :: t.refs == [Ref(q.toolCallId, nonce)] && NonceIs(s', q.jobId, q.toolCallId, nonce)
  }

  lemma ReissueTurns(s: Ledger, q: Reissue, m: Minted, k: TurnKey)
    requires Inv(s) && BindingsOwned(s) && k in Apply(s, OpReissue(q, m)).turns
    ensures var s' := Apply(s, OpReissue(q, m));
            if k in s.turns then s'.turns[k] == s.turns[k] else Extends(s, s', q, m, k, s'.turns[k])
  {
    hide ReissueParked;
    var op := OpReissue(q, m);
    if Legal(s, op) && ReissueParked(s, q, m).Done? {
      if ReissueParked(s, q, m).value.created {
        var b := CreatedFrom(s, q, m);
        var s' := Apply(s, op);
        OnlyRow(s', MovedRow(s, q, m, b));
        hide Inv;
        assert NonceIs(s', q.jobId, q.toolCallId, NonceAfter(s, m, b)) by {
          assert forall c :: c in s'.bindings && ForCall(c, q.jobId, q.toolCallId) ==>
                               c in RowsForCall(s', q.jobId, q.toolCallId);
        }
        hide NonceIs;
      } else {
        NotCreatedIsUnchanged(s, q, m);
      }
    }
  }

  lemma LinkChecks(s: Ledger, k: TurnKey, toolCallId: string, nonce: string, tenant: string)
    requires Inv(s) && LinkTurn(s, k, toolCallId, nonce, tenant).Done?
    ensures NonceIs(s, k.jobId, toolCallId, nonce)
  {
    hide LinkedElsewhere;
    forall b | b in s.bindings && ForCall(b, k.jobId, toolCallId)
      ensures b.nonce == nonce
    {
      OnlyRow(s, b);
    }
  }

  /** The i-th call admitted this turn, or the one a later re-issue extended into it. */
  predicate TurnAt(ops: seq<Op>, i: nat, k: TurnKey, t: RootTurn) {
    && i < |ops| && ops[i].OpTurn? && ops[i].key.jobId == k.jobId
    && ops[i].tenant == t.tenant && ops[i].authority == t.authority
    && ((ops[i].key == k && ops[i].policy == t.generation)
        || exists j :: i < j < |ops| && ReissuesInto(ops[j], k, t.generation))
  }

  predicate ReissuesInto(op: Op, k: TurnKey, generation: string) {
    op.OpReissue? && TurnKey(op.request_.jobId, op.minted.turnId) == k && op.request_.generation == generation
  }

  lemma TurnExtends(ops: seq<Op>, n: nat, i: nat, k: TurnKey, t: RootTurn, t': RootTurn)
    requires n <= |ops| && TurnAt(ops[..n], i, k, t) && t'.(refs := t.refs) == t
    ensures TurnAt(ops, i, k, t')
  {
    assert ops[..n][i] == ops[i];
    if !(ops[i].key == k && ops[i].policy == t.generation) {
      var j :| i < j < n && ReissuesInto(ops[..n][j], k, t.generation);
      assert ops[..n][j] == ops[j];
    }
  }

  lemma TurnReissued(ops: seq<Op>, i: nat, old_: TurnKey, t: RootTurn, k: TurnKey, t': RootTurn)
    requires ops != [] && ReissuesInto(ops[|ops| - 1], k, t'.generation)
    requires TurnAt(ops[..|ops| - 1], i, old_, t) && old_.jobId == k.jobId
    requires t'.tenant == t.tenant && t'.authority == t.authority
    ensures TurnAt(ops, i, k, t')
  {
    assert ops[..|ops| - 1][i] == ops[i];
  }

  /** Every root turn carries the tenant and authority some call of the run admitted for its
      job, under the generation admitted or that of a later re-issue. */
  lemma {:induction false} TurnsWereRecorded(ops: seq<Op>, k: TurnKey)
    requires k in Run(ops).turns
    ensures exists i :: TurnAt(ops, i, k, Run(ops).turns[k])
    decreases |ops|
  {
    if ops != [] {
      var n := |ops| - 1;
      assert ops[..|ops|] == ops;
      RunStep(ops, n);
      hide Run;
      var s, t := Run(ops[..n]), Run(ops).turns[k];
      StepTurns(s, ops[n], k);
      hide Apply;
      hide Inv;
      hide NonceIs;
      if k in s.turns {
        TurnsWereRecorded(ops[..n], k);
        var i :| TurnAt(ops[..n], i, k, s.turns[k]);
        TurnExtends(ops, n, i, k, s.turns[k], t);
      } else if ops[n].OpTurn? {
        assert TurnAt(ops, n, k, t);
      } else {
        var q := ops[n].request_;
        var old_ := TurnKey(q.jobId, q.turnId);
        TurnsWereRecorded(ops[..n], old_);
        var i :| TurnAt(ops[..n], i, old_, s.turns[old_]);
        TurnReissued(ops, i, old_, s.turns[old_], k, t);
      }
    }
  }

  /** The i-th call linked the call from this turn, under the nonce its row then had. */
  ghost predicate LinkedAt(ops: seq<Op>, i: nat, k: TurnKey, ref: Ref) {
    && i < |ops| && NonceIs(Run(ops[..i + 1]), k.jobId, ref.toolCallId, ref.nonce)
    && ((ops[i].OpLink? && ops[i].key == k && Ref(ops[i].toolCallId, ops[i].nonce) == ref)
        || (ops[i].OpReissue? && TurnKey(ops[i].request_.jobId, ops[i].minted.turnId) == k
            && ops[i].request_.toolCallId == ref.toolCallId))
  }

  /** Every link of a root turn was made by a call of the run, while the captured call carried
      the linked nonce. */
  lemma {:induction false} LinksWereMade(ops: seq<Op>, k: TurnKey, ref: Ref)
    requires k in Run(ops).turns && ref in Run(ops).turns[k].refs
    ensures exists i: nat :: LinkedAt(ops, i, k, ref)
    decreases |ops|
  {
    if ops != [] {
      var n := |ops| - 1;
      assert ops[..|ops|] == ops;
      RunStep(ops, n);
      hide Run;
      var s := Run(ops[..n]);
      StepTurns(s, ops[n], k);
      hide Apply;
      hide Inv;
      hide NonceIs;
      if k in s.turns && ref in s.turns[k].refs {
        LinksWereMade(ops[..n], k, ref);
        var i: nat :| LinkedAt(ops[..n], i, k, ref);
        assert ops[..n][..i + 1] == ops[..i + 1] && ops[..n][i] == ops[i];
        assert LinkedAt(ops, i, k, ref);
      } else {
        assert LinkedAt(ops, n, k, ref);
      }
    }
  }

  // ------------------------------------------------------- votes and fences

  /** The i-th call cast this vote, on a request that was open before and is decided as voted,
      by the voter, after. */
  ghost predicate CastAt(ops: seq<Op>, i: nat, voteId: string, vote: Vote) {
    && i < |ops| && ops[i].OpVote? && ops[i].voteId == voteId && ops[i].vote == vote
    && vote.approvalId in Run(ops[..i]).requests && !Terminal(Run(ops[..i]).requests[vote.approvalId].state)
    && vote.approvalId in Run(ops[..i + 1]).requests
    && var r := Run(ops[..i + 1]).requests[vote.approvalId];
       r.state == vote.decision && r.decision == Some(vote.decision) && r.deciderId == Some(vote.deciderId)
       && r.reason == ops[i].reason
  }

  lemma OnlyVotingVotes(s: Ledger, op: Op)
    requires Inv(s) && BindingsOwned(s) && Legal(s, op)
    ensures !op.OpVote? ==> Step(s, op).votes == s.votes
    ensures !op.OpFence? ==> Step(s, op).fences == s.fences
  {
    if op.OpReissue? {
      hide ReissueParked;
      if ReissueParked(s, op.request_, op.minted).Done? {
        if ReissueParked(s, op.request_, op.minted).value.created {
          var b := CreatedFrom(s, op.request_, op.minted);
        } else {
          NotCreatedIsUnchanged(s, op.request_, op.minted);
        }
      }
    } else {
      OthersKeepVotes(s, op);
    }
  }

  lemma OthersKeepVotes(s: Ledger, op: Op)
    requires BindingsOwned(s) && Legal(s, op) && !op.OpReissue?
    ensures !op.OpVote? ==> Step(s, op).votes == s.votes
    ensures !op.OpFence? ==> Step(s, op).fences == s.fences
  {
    hide Colliding;
    hide RowRefuses;
    hide SupersededIds;
    hide PublishedNonce;
    hide VerifyAttempt;
    hide ValidRequest;
    hide HasVote;
    hide RowsForCall;
    hide LinkedElsewhere;
    hide ValidPayload;
    hide Owns;
  }

  /** A vote is stored only by deciding its open request with it. */
  lemma StepVotes(s: Ledger, op: Op, voteId: string)
    requires Inv(s) && BindingsOwned(s) && voteId in Apply(s, op).votes
    requires voteId !in s.votes || s.votes[voteId] != Apply(s, op).votes[voteId]
    ensures var s' := Apply(s, op); var vote := s'.votes[voteId];
            && op.OpVote? && op.voteId == voteId && op.vote == vote
            && vote.approvalId in s.requests && !Terminal(s.requests[vote.approvalId].state)
            && vote.approvalId in s'.requests
            && var r := s'.requests[vote.approvalId];
               r.state == vote.decision && r.decision == Some(vote.decision) && r.deciderId == Some(vote.deciderId)
               && r.reason == op.reason
  {
    OnlyVotingVotes(s, op);
    hide Inv;
    hide HasVote;
    hide SameVote;
    if !op.OpVote? {
      hide Step;
    }
  }

  lemma CastExtends(ops: seq<Op>, n: nat, i: nat, voteId: string, vote: Vote)
    requires n <= |ops| && CastAt(ops[..n], i, voteId, vote)
    ensures CastAt(ops, i, voteId, vote)
  {
    hide Run;
    hide Inv;
    hide BindingsOwned;
    assert ops[..n][..i + 1] == ops[..i + 1] && ops[..n][..i] == ops[..i] && ops[..n][i] == ops[i];
  }

  /** Every stored vote was cast by a call of the run that decided its request with it. */
  lemma {:induction false} VotesWereCast(ops: seq<Op>, voteId: string)
    requires voteId in Run(ops).votes
    ensures exists i: nat :: CastAt(ops, i, voteId, Run(ops).votes[voteId])
    decreases |ops|
  {
    if ops != [] {
      var n := |ops| - 1;
      assert ops[..|ops|] == ops;
      RunStep(ops, n);
      hide Run;
      hide Apply;
      hide Inv;
      var s := Run(ops[..n]);
      if voteId in s.votes && s.votes[voteId] == Run(ops).votes[voteId] {
        VotesWereCast(ops[..n], voteId);
        var i: nat :| CastAt(ops[..n], i, voteId, s.votes[voteId]);
        CastExtends(ops, n, i, voteId, s.votes[voteId]);
      } else {
        StepVotes(s, ops[n], voteId);
        assert CastAt(ops, n, voteId, Run(ops).votes[voteId]);
      }
    }
  }

  ghost predicate FencedAt(ops: seq<Op>, i: nat, id: string) {
    && i < |ops| && ops[i].OpFence? && ops[i].id == id
    && id in Run(ops[..i]).requests && OwnedBy(ops[i].owner, Run(ops[..i]).requests[id])
  }

  predicate OwnedBy(o: Owner, r: Request) {
    (r.toolCallId, r.userId, r.requestId, r.runId, r.sessionId, r.channel)
    == (o.toolCallId, o.userId, o.requestId, o.runId, o.sessionId, o.channel)
  }

  /** An approval is fenced if and only if some call of the run fenced it in the name of its
      own tool call, user, request, run, session and channel. */
  lemma {:induction false} FencedIff(ops: seq<Op>, id: string)
    ensures id in Run(ops).fences <==> exists i: nat :: FencedAt(ops, i, id)
    decreases |ops|
  {
    if ops != [] {
      var n := |ops| - 1;
      FencedIff(ops[..n], id);
      FencedNow(ops, id);
      forall i: nat | i < n
        ensures FencedAt(ops[..n], i, id) <==> FencedAt(ops, i, id)
      {
        FencedPrefix(ops, i, id);
      }
      hide Run;
      hide FencedAt;
      if i: nat :| FencedAt(ops, i, id) {
        IsIndex(ops, i, id);
        assert i == n || FencedAt(ops[..n], i, id);
      }
      if i: nat :| FencedAt(ops[..n], i, id) {
        IsIndex(ops[..n], i, id);
        assert FencedAt(ops, i, id);
      }
    }
  }

  lemma FenceStep(s: Ledger, op: Op, id: string)
    requires Inv(s) && BindingsOwned(s)
    ensures id in Apply(s, op).fences <==>
              id in s.fences || (op.OpFence? && op.id == id && id in s.requests && OwnedBy(op.owner, s.requests[id]))
  {
    if Legal(s, op) && !op.OpFence? {
      OnlyVotingVotes(s, op);
      hide Step;
    }
    hide Inv;
  }

  lemma FencedNow(ops: seq<Op>, id: string)
    requires ops != []
    ensures id in Run(ops).fences <==> id in Run(ops[..|ops| - 1]).fences || FencedAt(ops, |ops| - 1, id)
  {
    assert ops[..|ops|] == ops;
    RunStep(ops, |ops| - 1);
    hide Run;
    hide Apply;
    hide Inv;
    hide OwnedBy;
    FenceStep(Run(ops[..|ops| - 1]), ops[|ops| - 1], id);
  }

  lemma FencedPrefix(ops: seq<Op>, i: nat, id: string)
    requires i < |ops| - 1
    ensures FencedAt(ops[..|ops| - 1], i, id) <==> FencedAt(ops, i, id)
  {
    hide Run;
    assert ops[..|ops| - 1][..i] == ops[..i] && ops[..|ops| - 1][i] == ops[i];
  }

  lemma IsIndex(ops: seq<Op>, i: nat, id: string)
    requires FencedAt(ops, i, id)
    ensures i < |ops|
  {
  }
}
