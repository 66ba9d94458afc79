/** Persistent grants over whole runs: exactly when one is minted, exactly when it is revoked,
    and exactly which grants a lookup may reuse, told from the calls of the run. */
module GrantRuns {
  import opened Json
  import opened ApprovalPolicy
  import opened ApprovalLedger
  import opened LedgerRuns
  import opened LedgerGuarantees
  import opened LedgerProvenance
  import opened OriginRuns

  // ----------------------------------------------------------------- minting

  /** In any reachable ledger a grant is minted if and only if its approval is unfenced, approved
      under the standard constraint for exactly this user, tool and scope, and reusable for that
      scope; then exactly that grant is added. */
  lemma MintIff(ops: seq<Op>, grantId: string, g: Grant)
    ensures var s := Run(ops); var o := CreateGrant(s, grantId, g);
            && (o.Done? <==>
                  && grantId !in s.grants && g.via in s.requests && !(exists i: nat :: FencedAt(ops, i, g.via))
                  && var r := s.requests[g.via];
                     && r.constraint.Standard? && r.state.Approved? && r.decision == Some(Approved)
                     && r.userId == g.userId && r.toolName == g.toolName && r.grantScope == Some(g.scope)
                     && (r.reuseMode.Legacy? || (r.reuseMode.Exact? && r.reuseKey == Some(g.scope))))
            && (o.Done? ==> o.value == s.(grants := s.grants[grantId := g]))
  {
    FencedIff(ops, g.via);
    hide Run;
  }

  // -------------------------------------------------------------- revocation

  /** This call revokes the grants it names: by id, by approval, or by its owner aborting or
      fencing the approval it was minted through. */
  predicate Revokes(s: Ledger, op: Op, grantId: string, via: string) {
    match op
    case OpRevoke(g) => g == grantId
    case OpRevokeVia(id) => id == via
    case OpAbort(id, owner, _) => id == via && id in s.requests && OwnedBy(owner, s.requests[id])
    case OpFence(id, owner) => id == via && id in s.requests && OwnedBy(owner, s.requests[id])
    case _ => false
  }

  lemma StepRevokes(s: Ledger, op: Op, grantId: string)
    requires Inv(s) && BindingsOwned(s) && grantId in s.grants
    ensures grantId in Apply(s, op).grants
    ensures var g := s.grants[grantId];
            Apply(s, op).grants[grantId] == g.(revoked := g.revoked || Revokes(s, op, grantId, g.via))
  {
    hide Inv;
    if op.OpGrant? || op.OpRevoke? || op.OpRevokeVia? || op.OpAbort? || op.OpFence? {
    } else if Legal(s, op) {
      OthersKeepGrants(s, op);
      hide Step;
    }
  }

  lemma OthersKeepGrants(s: Ledger, op: Op)
    requires BindingsOwned(s) && Legal(s, op)
    requires !op.OpGrant? && !op.OpRevoke? && !op.OpRevokeVia? && !op.OpAbort? && !op.OpFence?
    ensures Step(s, op).grants == s.grants
  {
    if op.OpPark? {
      hide Park;
      if Park(s, op.payload, op.generation).Done? {
        ParkTakesNothing(s, op.payload, op.generation);
      }
    } else if op.OpReissue? {
      hide ReissueParked;
      ReissueTakesNothing(s, op.request_, op.minted);
    } else {
      hide Park;
      hide ReissueParked;
      hide VerifyAttempt;
      hide Colliding;
      hide RowsForCall;
      hide ValidRequest;
      hide HasVote;
      hide LinkedElsewhere;
    }
  }

  /** The i-th call minted this grant. */
  ghost predicate MintedHere(ops: seq<Op>, i: nat, grantId: string) {
    && i < |ops| && ops[i].OpGrant? && ops[i].grantId == grantId
    && CreateGrant(Run(ops[..i]), grantId, ops[i].grant).Done?
  }

  /** A call after the i-th revoked it. */
  ghost predicate RevokedSince(ops: seq<Op>, i: nat, grantId: string, via: string) {
    exists j :: i < j < |ops| && Revokes(Run(ops[..j]), ops[j], grantId, via)
  }

  lemma RevokedSinceStep(ops: seq<Op>, i: nat, grantId: string, via: string)
    requires i < |ops| - 1
    ensures RevokedSince(ops, i, grantId, via) <==>
              RevokedSince(ops[..|ops| - 1], i, grantId, via)
              || Revokes(Run(ops[..|ops| - 1]), ops[|ops| - 1], grantId, via)
  {
    hide Run;
    hide Revokes;
    var n := |ops| - 1;
    if RevokedSince(ops, i, grantId, via) {
      var j :| i < j < |ops| && Revokes(Run(ops[..j]), ops[j], grantId, via);
      if j < n {
        assert ops[..n][..j] == ops[..j] && ops[..n][j] == ops[j];
      }
    }
    if RevokedSince(ops[..n], i, grantId, via) {
      var j :| i < j < n && Revokes(Run(ops[..n][..j]), ops[..n][j], grantId, via);
      assert ops[..n][..j] == ops[..j] && ops[..n][j] == ops[j];
    }
  }

  /** A grant is what was minted, and is revoked if and only if it was minted so or some later
      call revoked it. */
  lemma {:induction false} RevokedIff(ops: seq<Op>, i: nat, grantId: string)
    requires MintedHere(ops, i, grantId)
    ensures grantId in Run(ops).grants
    ensures var g := ops[i].grant;
            Run(ops).grants[grantId] == g.(revoked := g.revoked || RevokedSince(ops, i, grantId, g.via))
    decreases |ops|
  {
    var n := |ops| - 1;
    assert ops[..|ops|] == ops;
    RunStep(ops, n);
    if i == n {
      hide Run;
      hide Inv;
      assert !RevokedSince(ops, i, grantId, ops[i].grant.via);
    } else {
      hide Run;
      hide Inv;
      assert ops[..n][..i] == ops[..i] && ops[..n][i] == ops[i];
      RevokedIff(ops[..n], i, grantId);
      hide MintedHere;
      StepRevokes(Run(ops[..n]), ops[n], grantId);
      RevokedSinceStep(ops, i, grantId, ops[i].grant.via);
      hide Apply;
      hide RevokedSince;
    }
  }

  // ------------------------------------------------------------------ lookup

  /** What a lookup may answer: a live grant of exactly this user, tool and scope, whose request
      has the reuse mode asked for and, if exact, the key. */
  predicate Reusable(g: Grant, r: Request, userId: string, toolName: string, scope: string, mode: ReuseMode,
                     key: Option<string>, now: int) {
    && g.userId == userId && g.toolName == toolName && g.scope == scope
    && !g.revoked && (g.expiresAt.None? || now < g.expiresAt.value)
    && r.reuseMode == mode && !mode.Disabled? && (mode.Exact? ==> r.reuseKey == key)
  }

  /** The i-th call minted such a grant, and no later call revoked it. */
  ghost predicate LiveSince(ops: seq<Op>, i: nat, grantId: string, userId: string, toolName: string, scope: string,
                            mode: ReuseMode, key: Option<string>, now: int) {
    && MintedHere(ops, i, grantId)
    && ops[i].grant.via in Run(ops).requests && !RevokedSince(ops, i, grantId, ops[i].grant.via)
    && Reusable(ops[i].grant, Run(ops).requests[ops[i].grant.via], userId, toolName, scope, mode, key, now)
  }

  /** Which grants a lookup may answer, told by the run: those a call minted for exactly this
      user, tool and scope, unexpired, through a request of the mode and key asked for, that no
      call revoked since, neither by id nor by approval nor by the owner aborting or fencing it. */
  lemma FoundIff(ops: seq<Op>, userId: string, toolName: string, scope: string, constraint: Constraint,
                 mode: ReuseMode, key: Option<string>, now: int, grantId: string)
    ensures grantId in Findable(Run(ops), userId, toolName, scope, constraint, mode, key, now) <==>
              && constraint.Standard?
              && exists i: nat :: LiveSince(ops, i, grantId, userId, toolName, scope, mode, key, now)
  {
    var s := Run(ops);
    if grantId in s.grants {
      var i := MintFound(ops, grantId);
      RevokedIff(ops, i, grantId);
      assert GrantOk(s, s.grants[grantId]);
      hide Run;
      hide RevokedSince;
      forall k: nat | MintedHere(ops, k, grantId)
        ensures ops[k].grant.(revoked := true) == ops[i].grant.(revoked := true)
        ensures s.grants[grantId].revoked <==> ops[k].grant.revoked || RevokedSince(ops, k, grantId, ops[k].grant.via)
      {
        RevokedIff(ops, k, grantId);
      }
      assert LiveSince(ops, i, grantId, userId, toolName, scope, mode, key, now) <==>
               s.grants[grantId].via in s.requests
               && Reusable(s.grants[grantId], s.requests[s.grants[grantId].via], userId, toolName, scope, mode, key,
                           now);
      hide MintedHere;
      hide Inv;
    } else {
      hide Run;
      forall k: nat | MintedHere(ops, k, grantId)
        ensures false
      {
        RevokedIff(ops, k, grantId);
      }
    }
  }

  lemma {:induction false} MintFound(ops: seq<Op>, grantId: string) returns (i: nat)
    requires grantId in Run(ops).grants
    ensures MintedHere(ops, i, grantId)
    decreases |ops|
  {
    var n := |ops| - 1;
    assert ops[..|ops|] == ops;
    assert ops != [];
    RunStep(ops, n);
    hide Run;
    hide Inv;
    if grantId in Run(ops[..n]).grants {
      i := MintFound(ops[..n], grantId);
      assert ops[..n][..i] == ops[..i] && ops[..n][i] == ops[i];
    } else {
      i := n;
      if !ops[n].OpGrant? {
        OnlyMintAddsGrants(Run(ops[..n]), ops[n]);
        assert false;
      }
    }
  }
}
