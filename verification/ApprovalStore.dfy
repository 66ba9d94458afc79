/** The approval store as an object: the tables are fields, and each write transaction is
    a method that either commits or rolls back. Every method is proved against the
    transaction of the same name in `ApprovalLedger` and keeps the ledger's invariant. */
module ApprovalStore {
  import opened Json
  import opened ApprovalPolicy
  import opened ApprovalLedger
  import opened LedgerRuns
  import opened LedgerGuarantees
  import opened GrantRuns

  /** With the invariant, the row found for a call is the only one. */
  lemma FoundRow(s: Ledger, jobId: string, toolCallId: string, b: Binding)
    requires RowsUnique(s) && b in RowsForCall(s, jobId, toolCallId)
    ensures AnyRow(RowsForCall(s, jobId, toolCallId)) == Some(b)
  {
  }

  /** What stops a park. */
  lemma ParkRaises(s: Ledger, p: Payload, generation: Option<string>)
    requires BindingsOwned(s)
    ensures !ValidPayload(p) || p.approvalId !in s.requests ==> ApprovalLedger.Park(s, p, generation).Raised?
    ensures p.approvalId in s.requests ==>
              var r := s.requests[p.approvalId];
              && ((exists b ::
                     b in Colliding(s, p.approvalId, p.jobId, p.toolCallId) && RowRefuses(s, b, p, generation)) ==>
                    ApprovalLedger.Park(s, p, generation).Raised?)
              && (r.toolCallId != p.toolCallId && !Undecided(r) ==> ApprovalLedger.Park(s, p, generation).Raised?)
              && (!Agrees(NewBinding(p, PublishedNonce(s, p, generation), r.argsHash),
                          r.(toolCallId := p.toolCallId)) ==>
                    ApprovalLedger.Park(s, p, generation).Raised?)
  {
    hide RowRefuses;
    hide PublishedNonce;
    hide Colliding;
    hide ValidPayload;
    hide SupersededIds;
  }

  lemma OwnedBySuccessor(s: Ledger, q: Reissue, m: Minted)
    requires Inv(s) && Unused(s, q, m) && q.approvalId in s.requests && TurnKey(q.jobId, q.turnId) in s.turns
    ensures BindingsOwned(WithSuccessor(s, q, m))
  {
    SuccessorGood(s, q, m);
    OwnedByInv(WithSuccessor(s, q, m));
  }

  class Store {
    var requests: map<string, Request>
    var bindings: set<Binding>
    var turns: map<TurnKey, RootTurn>
    var votes: map<string, Vote>
    var grants: map<string, Grant>
    var fences: set<string>

    function State(): Ledger
      reads this
    {
      Ledger(requests, bindings, turns, votes, grants, fences)
    }

    ghost predicate Valid()
      reads this
    {
      Inv(State())
    }

    /** The transaction committed exactly this outcome, or raised and changed nothing. */
    ghost predicate Ends(o: Outcome<Ledger>, before: Ledger, error: Option<ErrorCode>)
      reads this
    {
      match o
      case Done(s) => State() == s && error == None
      case Raised(code) => State() == before && error == Some(code)
    }

    constructor ()
      ensures Valid() && State() == EMPTY_LEDGER
    {
      requests, bindings, turns, votes, grants, fences := map[], {}, map[], map[], map[], {};
      new;
      EmptyInv();
    }

    method Rollback(saved: Ledger)
      modifies this
      ensures State() == saved
    {
      requests, bindings, turns := saved.requests, saved.bindings, saved.turns;
      votes, grants, fences := saved.votes, saved.grants, saved.fences;
    }

    // ------------------------------------------------------------- requests

    method Create(id: string, r: Request) returns (error: Option<ErrorCode>)
      requires Valid()
      modifies `requests
      ensures Valid() && Ends(CreateRequest(old(State()), id, r), old(State()), error)
    {
      hide Evolves;
      CreateGood(State(), id, r);
      if !ValidRequest(r) {
        return Some(NotPermitted);
      }
      if id in requests {
        return Some(DuplicateKey);
      }
      requests := requests[id := r];
      return None;
    }

    /** The one write of a request's state. */
    method WriteState(id: string, updated: Request) returns (error: Option<ErrorCode>)
      requires Valid() && id in requests && updated.version > requests[id].version
      modifies `requests
      ensures Valid() && Ends(WriteTransition(old(State()), id, updated), old(State()), error)
    {
      hide Evolves;
      WriteGood(State(), id, updated);
      var r := requests[id];
      if !Terminal(updated.state) && Terminal(r.state) {
        return Some(Terminated);
      }
      requests := requests[id := r.(state := updated.state, version := updated.version, deciderId := updated.deciderId,
                                    decision := updated.decision, reason := updated.reason)];
      return None;
    }

    method TransitionState(id: string, state: ApprovalState, expectedVersion: Option<int>, deciderId: Option<string>,
                           decision: Option<ApprovalState>, reason: Option<string>) returns (error: Option<ErrorCode>)
      requires Valid()
      modifies `requests
      ensures Valid()
      ensures Ends(Transition(old(State()), id, state, expectedVersion, deciderId, decision, reason), old(State()),
                   error)
    {
      hide Evolves;
      if id !in requests {
        return Some(NotFound);
      }
      var r := requests[id];
      if expectedVersion.Some? && expectedVersion.value != r.version {
        return Some(VersionChanged);
      }
      var written := decision;
      if decision.None? && Terminal(state) {
        written := Some(state);
      }
      error := WriteState(id, r.(state := state, version := r.version + 1, deciderId := OrElse(deciderId, r.deciderId),
                                 decision := written, reason := OrElse(reason, r.reason)));
    }

    method TerminalizePending(id: string, owner: Owner, deciderId: Option<string>, why: string)
      returns (error: Option<ErrorCode>)
      requires Valid()
      modifies `requests
      ensures Valid() && Ends(Cancel(old(State()), id, owner, deciderId, why), old(State()), error)
    {
      hide Evolves;
      if id !in requests {
        return Some(NotFound);
      }
      var r := requests[id];
      if !Owns(owner, r) || !r.state.PendingUser? {
        return None;
      }
      error := WriteState(id, r.(state := Denied, version := r.version + 1, deciderId := OrElse(deciderId, r.deciderId),
                                 decision := Some(Denied), reason := Some(why)));
    }

    method AbortUnpublished(id: string, owner: Owner, why: string) returns (error: Option<ErrorCode>)
      requires Valid()
      modifies `requests, `grants
      ensures Valid() && Ends(Abort(old(State()), id, owner, why), old(State()), error)
    {
      hide Evolves;
      AbortGood(State(), id, owner, why);
      hide Inv;
      if id !in requests {
        return Some(NotFound);
      }
      var r := requests[id];
      if !Owns(owner, r) {
        return None;
      }
      if !Terminal(r.state) {
        r := r.(state := Denied, version := r.version + 1, decision := Some(Denied), reason := Some(why));
      }
      requests := requests[id := r];
      RevokeVia(id);
      return None;
    }

    /** One vote decides the request; the conflicting-vote error is never raised. */
    method Vote(voteId: string, vote: Vote, reason: Option<string>) returns (error: Option<ErrorCode>)
      requires Valid() && vote.decision in {Approved, Denied}
      modifies `requests, `votes
      ensures Valid() && Ends(RecordVote(old(State()), voteId, vote, reason), old(State()), error)
      ensures error != Some(VoteConflict)
    {
      hide Inv;
      hide HasVote;
      hide SameVote;
      hide Evolves;
      VoteGood(State(), voteId, vote, reason);
      var id := vote.approvalId;
      if id !in requests {
        return Some(NotFound);
      }
      var r := requests[id];
      if Terminal(r.state) {
        return None;
      }
      var voted := HasVote(State(), id, vote.deciderId);
      if voted && !SameVote(State(), voteId, vote) {
        return Some(VoteConflict);
      }
      if !voted && voteId in votes {
        return Some(DuplicateKey);
      }
      votes := votes[voteId := vote];
      requests := requests[id := r.(state := vote.decision, version := r.version + 1, deciderId := Some(vote.deciderId),
                                    decision := Some(vote.decision), reason := reason)];
      return None;
    }

    method Update(id: string, u: Request) returns (error: Option<ErrorCode>)
      requires Valid()
      modifies `requests
      ensures Valid() && Ends(UpdateRequest(old(State()), id, u), old(State()), error)
    {
      hide Evolves;
      UpdateGood(State(), id, u);
      if !ValidRequest(u) {
        return Some(NotPermitted);
      }
      if id !in requests {
        return Some(NotFound);
      }
      if exists b :: b in RowsForApproval(State(), id) && !Agrees(b, u) {
        return Some(CallIdentityMismatch);
      }
      var r := requests[id];
      if !SameFrozenIdentity(r, u) {
        return Some(IdentityImmutable);
      }
      requests := requests[id := r.(argsHash := u.argsHash, grantScope := u.grantScope,
                                    authorization := u.authorization,
                                    grantReference := u.grantReference, policyId := u.policyId)];
      return None;
    }

    // ------------------------------------------------------------- bindings

    method FindRow(jobId: string, toolCallId: string) returns (row: Option<Binding>)
      requires RowsUnique(State())
      ensures row == AnyRow(RowsForCall(State(), jobId, toolCallId))
    {
      var rows := RowsForCall(State(), jobId, toolCallId);
      if rows == {} {
        return None;
      }
      var b :| b in rows;
      FoundRow(State(), jobId, toolCallId, b);
      return Some(b);
    }

    /** The policy generation of the one root turn linking this binding's nonce. */
    method LinkedGeneration(row: Binding) returns (generation: Option<string>)
      ensures forall g :: OtherGeneration(State(), row, g) <==> generation.Some? && generation.value != g
    {
      var linking := Linking(State(), row.jobId, row.toolCallId, row.nonce, row.tenant);
      if |linking| != 1 {
        return None;
      }
      var k :| k in linking;
      assert linking == {k} by {
        assert |linking - {k}| == 0;
      }
      return Some(turns[k].generation);
    }

    method RecordExecutable(p: Payload) returns (error: Option<ErrorCode>)
      requires Valid()
      modifies `bindings
      ensures Valid()
      ensures match RecordBinding(old(State()), p)
              case Done(s) => State() == s && error == None
              case Raised(_) => State() == old(State()) && error.Some?
    {
      hide Evolves;
      RecordGood(State(), p);
      if !ValidPayload(p) {
        return Some(CallIdentityMismatch);
      }
      if p.approvalId !in requests {
        return Some(MissingBinding);
      }
      var r := requests[p.approvalId];
      var b := NewBinding(p, p.nonce, r.argsHash);
      if !Agrees(b, r) {
        return Some(IdentityError(b, r));
      }
      var existing := Colliding(State(), p.approvalId, p.jobId, p.toolCallId);
      if existing == {} {
        bindings := bindings + {b};
        return None;
      }
      var row :| row in existing;
      SameRowIsOnly(State(), p, b);
      if row.tenant != b.tenant {
        return Some(TenantMismatch);
      }
      if row.nonce != b.nonce {
        return Some(NonceMismatch);
      }
      if row.approvalId != b.approvalId || !ForCall(row, b.jobId, b.toolCallId) || row.toolName != b.toolName {
        return Some(CallIdentityMismatch);
      }
      if row.(execution := Unclaimed) != b {
        return Some(OperandMismatch);
      }
      return None;
    }

    /** Bind the call a park is about to publish: inspect every row it collides with, replace
        them by the new one, and expire the requests it supersedes. */
    method Park(p: Payload, generation: Option<string>) returns (nonce: string, error: Option<ErrorCode>)
      requires Valid()
      modifies `requests, `bindings
      ensures Valid()
      ensures BindingsOwned(old(State()))
      ensures match ApprovalLedger.Park(old(State()), p, generation)
              case Done(parked) => State() == parked.ledger && nonce == parked.nonce && error == None
              case Raised(_) => State() == old(State()) && error.Some?
    {
      hide Inv;
      hide Evolves;
      hide ApprovalLedger.Park;
      hide RowRefuses;
      hide PublishedNonce;
      hide OtherGeneration;
      ghost var s := State();
      OwnedByInv(s);
      ParkGood(s, p, generation);
      ParkRaises(s, p, generation);
      nonce := p.nonce;
      if !ValidPayload(p) {
        return nonce, Some(CallIdentityMismatch);
      }
      if p.approvalId !in requests {
        return nonce, Some(MissingBinding);
      }
      var existing := Colliding(State(), p.approvalId, p.jobId, p.toolCallId);
      var superseded;
      nonce, superseded, error := InspectRows(p, generation, existing);
      if error.Some? {
        return;
      }
      var r := requests[p.approvalId];
      if r.toolCallId != p.toolCallId {
        if !Undecided(r) {
          return nonce, Some(CallIdentityMismatch);
        }
        r := r.(toolCallId := p.toolCallId);
      }
      var b := NewBinding(p, nonce, r.argsHash);
      if !Agrees(b, r) {
        return nonce, Some(IdentityError(b, r));
      }
      bindings := bindings - existing + {b};
      requests := ExpireEach(requests[p.approvalId := r], superseded, REISSUED_AS + p.approvalId);
      ParkCommits(s, p, generation, nonce, r);
      return nonce, None;
    }

    /** The loop over colliding rows: refuse the first that cannot be moved, collect the
        approvals this park supersedes, and keep the nonce of a row it re-parks. */
    method InspectRows(p: Payload, generation: Option<string>, existing: set<Binding>)
      returns (nonce: string, superseded: set<string>, error: Option<ErrorCode>)
      requires RowsUnique(State()) && BindingsOwned(State()) && p.approvalId in requests
      requires existing == Colliding(State(), p.approvalId, p.jobId, p.toolCallId)
      ensures error.Some? <==> exists b :: b in existing && RowRefuses(State(), b, p, generation)
      ensures error.None? ==> superseded == SupersededIds(State(), p, generation)
      ensures error.None? ==> nonce == PublishedNonce(State(), p, generation)
    {
      hide PublishedNonce;
      hide OtherGeneration;
      hide RowsUnique;
      assert forall b :: b in existing ==> b in bindings;
      hide Colliding;
      nonce, superseded, error := p.nonce, {}, None;
      ghost var kept: Option<Binding> := None;
      var rest := existing;
      while rest != {}
        invariant rest <= existing
        invariant forall b :: b in existing - rest ==> !RowRefuses(State(), b, p, generation)
        invariant superseded == set b | b in existing - rest && RowSuperseded(State(), b, p, generation) :: b.approvalId
        invariant match kept
                  case Some(b) => b in existing && RowKeepsNonce(State(), b, p, generation) && nonce == b.nonce
                  case None => nonce == p.nonce
        invariant kept.None? ==> forall b :: b in existing - rest ==> !RowKeepsNonce(State(), b, p, generation)
        decreases rest
      {
        var row :| row in rest;
        if row.tenant != p.tenant {
          return nonce, superseded, Some(TenantMismatch);
        }
        if row.toolName != p.toolName || !row.execution.Unclaimed? {
          return nonce, superseded, Some(CallIdentityMismatch);
        }
        var state := requests[row.approvalId].state;
        var linked := LinkedGeneration(row);
        var passed := false;
        if row.approvalId == p.approvalId {
          if !Undecided(requests[p.approvalId]) {
            return nonce, superseded, Some(CallIdentityMismatch);
          }
        } else if generation.Some? && state in {Created, PendingUser, Approved}
                  && linked.Some? && linked.value != generation.value {
          superseded := superseded + {row.approvalId};
          passed := true;
        } else if state !in {Denied, AutoDenied, Expired} {
          return nonce, superseded, Some(CallIdentityMismatch);
        }
        if !passed && ForCall(row, p.jobId, p.toolCallId) {
          nonce := row.nonce;
          kept := Some(row);
        }
        rest := rest - {row};
      }
      NonceIsPublished(State(), p, generation, kept);
    }

    method RecordRootTurn(k: TurnKey, tenant: string, authority: string, generation: string)
      returns (error: Option<ErrorCode>)
      requires Valid()
      modifies `turns
      ensures Valid() && Ends(RecordTurn(old(State()), k, tenant, authority, generation), old(State()), error)
    {
      hide Evolves;
      TurnGood(State(), k, tenant, authority, generation);
      if k !in turns {
        turns := turns[k := RootTurn(tenant, authority, generation, [])];
        return None;
      }
      if turns[k].tenant != tenant {
        return Some(TenantMismatch);
      }
      if turns[k].authority != authority || turns[k].generation != generation {
        return Some(SnapshotMismatch);
      }
      return None;
    }

    method LinkRootTurn(k: TurnKey, toolCallId: string, nonce: string, tenant: string)
      returns (error: Option<ErrorCode>)
      requires Valid()
      modifies `turns
      ensures Valid() && Ends(LinkTurn(old(State()), k, toolCallId, nonce, tenant), old(State()), error)
    {
      hide Evolves;
      LinkGood(State(), k, toolCallId, nonce, tenant);
      if k !in turns {
        return Some(MissingRootTurn);
      }
      if turns[k].tenant != tenant {
        return Some(TenantMismatch);
      }
      var row := FindRow(k.jobId, toolCallId);
      var held: Option<string> := None;
      if row.None? {
        if !HasRequestFor(State(), k.jobId, toolCallId, tenant) {
          return Some(MissingBinding);
        }
      } else {
        if row.value.tenant != tenant {
          return Some(TenantMismatch);
        }
        if row.value.nonce != nonce {
          return Some(NonceMismatch);
        }
        held := Some(row.value.nonce);
      }
      if LinkedElsewhere(State(), k, toolCallId, held) {
        return Some(TurnLinkMismatch);
      }
      var refs := turns[k].refs;
      if Ref(toolCallId, nonce) !in refs {
        turns := turns[k := turns[k].(refs := refs + [Ref(toolCallId, nonce)])];
      }
      return None;
    }

    // ------------------------------------------------------------ execution

    method ReadExecutable(jobId: string, toolCallId: string, nonce: string, tenant: string)
      returns (o: Outcome<Binding>)
      requires RowsUnique(State())
      ensures o == ReadBinding(State(), jobId, toolCallId, nonce, tenant)
    {
      var row := FindRow(jobId, toolCallId);
      if row.None? {
        return Raised(MissingBinding);
      }
      var b := row.value;
      if b.tenant != tenant {
        return Raised(TenantMismatch);
      }
      if b.nonce != nonce {
        return Raised(NonceMismatch);
      }
      if b.approvalId !in requests {
        return Raised(MissingBinding);
      }
      if !Agrees(b, requests[b.approvalId]) {
        return Raised(IdentityError(b, requests[b.approvalId]));
      }
      return Done(b);
    }

    method Verify(b: Binding) returns (o: Outcome<Binding>)
      requires RowsUnique(State())
      ensures o == VerifyAttempt(State(), b)
    {
      o := ReadExecutable(b.jobId, b.toolCallId, b.nonce, b.tenant);
      if o.Done? && !SameCapture(o.value, b) {
        o := Raised(OperandMismatch);
      }
    }

    /** Reserve the one attempt at the call (`None`), or return its completed result. */
    method ClaimExecution(b: Binding, decisionVersion: int, token: string)
      returns (completed: Option<string>, error: Option<ErrorCode>)
      requires Valid()
      modifies `bindings
      ensures Valid()
      ensures match Claim(old(State()), b, decisionVersion, token)
              case Done(Reserved(s)) => State() == s && completed == None && error == None
              case Done(AlreadyCompleted(result)) => State() == old(State()) && completed == Some(result)
                                                     && error == None
              case Raised(code) => State() == old(State()) && error == Some(code)
    {
      hide Evolves;
      ClaimGood(State(), b, decisionVersion, token);
      completed := None;
      if token == "" {
        return None, Some(ClaimTokenMismatch);
      }
      var verified := Verify(b);
      if verified.Raised? {
        return None, Some(verified.code);
      }
      var current := verified.value;
      match current.execution {
        case Completed(_, _, result) => { return Some(result), None; }
        case Claimed(_, _) => { return None, Some(OutcomeUnknown); }
        case Unclaimed => {
          var r := requests[current.approvalId];
          if r.version != decisionVersion || !Executable(r) {
            return None, Some(DecisionMismatch);
          }
          bindings := bindings - {current} + {current.(execution := Claimed(token, decisionVersion))};
          return None, None;
        }
      }
    }

    method CompleteExecution(b: Binding, decisionVersion: int, token: string, result: string)
      returns (error: Option<ErrorCode>)
      requires Valid()
      modifies `bindings
      ensures Valid() && Ends(Complete(old(State()), b, decisionVersion, token, result), old(State()), error)
    {
      hide Evolves;
      CompleteGood(State(), b, decisionVersion, token, result);
      if token == "" {
        return Some(ClaimTokenMismatch);
      }
      var verified := Verify(b);
      if verified.Raised? {
        return Some(verified.code);
      }
      var current := verified.value;
      if current.execution.Unclaimed? || current.execution.token != token {
        return Some(ClaimTokenMismatch);
      }
      if current.execution.decisionVersion != decisionVersion {
        return Some(DecisionMismatch);
      }
      if current.execution.Completed? {
        if current.execution.result != result {
          return Some(ResultMismatch);
        }
        return None;
      }
      bindings := bindings - {current} + {current.(execution := Completed(token, decisionVersion, result))};
      return None;
    }

    // ------------------------------------------------------------- re-issue

    method FindSuccessor(r: Request, q: Reissue) returns (issued: Option<Reissued>)
      requires Valid()
      ensures issued == SuccessorOf(State(), r, q)
      ensures issued.Some? ==> issued.value.ledger == State()
    {
      SuccessorByRow(State(), r, q);
      var row := FindRow(q.jobId, q.toolCallId);
      if row.None? || row.value.tenant != q.tenant {
        return None;
      }
      var b := row.value;
      var linking := Linking(State(), q.jobId, q.toolCallId, b.nonce, q.tenant);
      if r.reason != Some(REISSUED_AS + b.approvalId) || |linking| != 1 {
        return None;
      }
      var k :| k in linking;
      assert linking == {k} by {
        assert |linking - {k}| == 0;
      }
      return Some(Reissued(State(), b.approvalId, b.nonce, k.turnId, false));
    }

    /** Create the successor and its turn, move the binding, link it, and publish the
        successor, all or nothing. */
    method ReissueApproval(q: Reissue, m: Minted) returns (issued: Option<Reissued>, error: Option<ErrorCode>)
      requires Valid() && Unused(State(), q, m)
      modifies this
      ensures Valid()
      ensures BindingsOwned(old(State()))
      ensures match ReissueParked(old(State()), q, m)
              case Done(x) => State() == x.ledger && issued == Some(x) && error == None
              case Raised(_) => State() == old(State()) && issued == None && error.Some?
    {
      hide ApprovalLedger.PublishSuccessor;
      hide SuccessorOf;
      hide ReadBinding;
      hide Good;
      var saved := State();
      OwnedByInv(saved);
      if q.approvalId !in requests {
        return None, Some(MissingRootTurn);
      }
      var r := requests[q.approvalId];
      if r.state.Expired? {
        issued := FindSuccessor(r, q);
        if issued.Some? {
          return issued, None;
        }
      }
      issued := None;
      var k := TurnKey(q.jobId, q.turnId);
      if k !in turns || turns[k].tenant != q.tenant {
        return None, Some(MissingRootTurn);
      }
      var t := turns[k];
      var read := ReadExecutable(q.jobId, q.toolCallId, q.nonce, q.tenant);
      if read.Raised? {
        return None, Some(read.code);
      }
      InvAt(saved, q.approvalId);
      hide Inv;
      OwnedBySuccessor(saved, q, m);
      error := Create(m.approvalId, Fresh(r, q.policyId));
      error := RecordRootTurn(TurnKey(q.jobId, m.turnId), q.tenant, t.authority, q.generation);
      assert State() == WithSuccessor(saved, q, m);
      issued, error := PublishSuccessor(saved, q, m, read.value);
    }

    method PublishSuccessor(saved: Ledger, q: Reissue, m: Minted, b: Binding)
      returns (issued: Option<Reissued>, error: Option<ErrorCode>)
      requires Valid() && BindingsOwned(State()) && Inv(saved)
      modifies this
      ensures Valid()
      ensures match ApprovalLedger.PublishSuccessor(old(State()), q, m, b)
              case Done(x) => State() == x.ledger && issued == Some(x) && error == None
              case Raised(_) => State() == saved && issued == None && error.Some?
    {
      hide Inv;
      hide ApprovalLedger.Park;
      hide LinkTurn;
      hide WriteTransition;
      var nonce;
      nonce, error := Park(SuccessorPayload(q, m, b), Some(q.generation));
      if error.Some? {
        Rollback(saved);
        return None, error;
      }
      error := LinkRootTurn(TurnKey(q.jobId, m.turnId), q.toolCallId, nonce, q.tenant);
      if error.Some? {
        Rollback(saved);
        return None, error;
      }
      if m.approvalId !in requests {
        Rollback(saved);
        return None, Some(NotFound);
      }
      var parked := requests[m.approvalId];
      error := WriteState(m.approvalId, parked.(state := PendingUser, version := parked.version + 1));
      if error.Some? {
        Rollback(saved);
        return None, error;
      }
      return Some(Reissued(State(), m.approvalId, nonce, m.turnId, true)), None;
    }

    // --------------------------------------------------- grants and fences

    method MintGrant(grantId: string, g: Grant) returns (error: Option<ErrorCode>)
      requires Valid()
      modifies `grants
      ensures Valid() && Ends(CreateGrant(old(State()), grantId, g), old(State()), error)
    {
      hide Evolves;
      GrantGood(State(), grantId, g);
      if g.via in fences {
        return Some(Fenced);
      }
      if g.via !in requests {
        return Some(NotPermitted);
      }
      var r := requests[g.via];
      if !r.constraint.Standard? || !r.state.Approved? || r.decision != Some(Approved) {
        return Some(NotPermitted);
      }
      if r.userId != g.userId || r.toolName != g.toolName || r.grantScope != Some(g.scope) {
        return Some(NotPermitted);
      }
      if r.reuseMode.Disabled? || (r.reuseMode.Exact? && r.reuseKey != Some(g.scope)) {
        return Some(NotPermitted);
      }
      if grantId in grants {
        return Some(DuplicateKey);
      }
      grants := grants[grantId := g];
      return None;
    }

    method RevokeVia(id: string)
      modifies `grants
      ensures grants == RevokedVia(old(grants), id)
    {
      var rest := grants.Keys;
      var was := grants;
      while rest != {}
        invariant rest <= was.Keys == grants.Keys
        invariant forall g :: g in was ==> grants[g] == if g in rest then was[g] else RevokedVia(was, id)[g]
        decreases rest
      {
        var g :| g in rest;
        if grants[g].via == id {
          grants := grants[g := grants[g].(revoked := true)];
        }
        rest := rest - {g};
      }
    }

    method FenceGrants(id: string, owner: Owner) returns (error: Option<ErrorCode>)
      requires Valid()
      modifies `grants, `fences
      ensures Valid() && Ends(Fence(old(State()), id, owner), old(State()), error)
    {
      hide Evolves;
      FenceGood(State(), id, owner);
      if id !in requests {
        return Some(NotFound);
      }
      if !Owns(owner, requests[id]) {
        return None;
      }
      fences := fences + {id};
      RevokeVia(id);
      return None;
    }

    /** The newest grant the lookup may reuse, if there is one. */
    method FindGrant(userId: string, toolName: string, scope: string, constraint: Constraint, mode: ReuseMode,
                     key: Option<string>, now: int) returns (found: Option<string>)
      requires Valid()
      ensures found.None? <==>
                !constraint.Standard?
                || forall g :: g in grants ==>
                     grants[g].via in fences
                     || !Reusable(grants[g], requests[grants[g].via], userId, toolName, scope, mode, key, now)
      ensures found.Some? ==>
                && found.value in grants && grants[found.value].via !in fences && constraint.Standard?
                && Reusable(grants[found.value], requests[grants[found.value].via], userId, toolName, scope, mode, key,
                            now)
                && (mode.Exact? ==> key == Some(scope))
                && forall g | g in grants && grants[g].via !in fences ::
                     Reusable(grants[g], requests[grants[g].via], userId, toolName, scope, mode, key, now) ==>
                       grants[g].grantedAt <= grants[found.value].grantedAt
    {
      var live := Findable(State(), userId, toolName, scope, constraint, mode, key, now);
      found := None;
      var rest := live;
      while rest != {}
        invariant rest <= live
        invariant found.None? <==> rest == live
        invariant found.Some? ==> found.value in live
        invariant found.Some? ==> forall g :: g in live - rest ==> grants[g].grantedAt <= grants[found.value].grantedAt
        decreases rest
      {
        var g :| g in rest;
        if found.None? || grants[g].grantedAt > grants[found.value].grantedAt {
          found := Some(g);
        }
        rest := rest - {g};
      }
      assert constraint.Standard? ==>
          forall g :: g in live <==>
            g in grants && grants[g].via !in fences
            && Reusable(grants[g], requests[grants[g].via], userId, toolName, scope, mode, key, now);
      if found.Some? {
        assert GrantOk(State(), grants[found.value]);
      }
    }
  }

  /** A colliding row that matches the new binding is the only colliding row. */
  lemma SameRowIsOnly(s: Ledger, p: Payload, b: Binding)
    requires Inv(s) && b.approvalId == p.approvalId && b.jobId == p.jobId && b.toolCallId == p.toolCallId
    ensures forall row |
              row in Colliding(s, p.approvalId, p.jobId, p.toolCallId) && row.(execution := Unclaimed) == b ::
              Colliding(s, p.approvalId, p.jobId, p.toolCallId) == {row}
  {
  }

  lemma NonceIsPublished(s: Ledger, p: Payload, generation: Option<string>, kept: Option<Binding>)
    requires RowsUnique(s) && BindingsOwned(s)
    requires kept.Some? ==> kept.value in s.bindings && RowKeepsNonce(s, kept.value, p, generation)
    requires kept.None? ==>
               forall b :: b in Colliding(s, p.approvalId, p.jobId, p.toolCallId) ==>
                 !RowKeepsNonce(s, b, p, generation)
    ensures PublishedNonce(s, p, generation) == if kept.Some? then kept.value.nonce else p.nonce
  {
    var rows := set b | b in s.bindings && RowKeepsNonce(s, b, p, generation);
    if kept.Some? {
      assert kept.value in rows;
    } else {
      assert forall b :: b in rows ==> b in Colliding(s, p.approvalId, p.jobId, p.toolCallId);
    }
  }

  lemma SuccessorByRow(s: Ledger, r: Request, q: Reissue)
    requires Inv(s)
    ensures var row := AnyRow(RowsForCall(s, q.jobId, q.toolCallId));
            AnyRow(set b | b in RowsForCall(s, q.jobId, q.toolCallId) && b.tenant == q.tenant) ==
            if row.Some? && row.value.tenant == q.tenant then row else None
  {
    var rows := RowsForCall(s, q.jobId, q.toolCallId);
    if rows != {} {
      OnlyRow(s, AnyRow(rows).value);
    }
  }

  /** Expire each superseded request in turn. */
  method ExpireEach(requests: map<string, Request>, superseded: set<string>, reason: string)
    returns (r: map<string, Request>)
    requires superseded <= requests.Keys
    ensures r == ExpireAll(requests, superseded, reason)
  {
    r := requests;
    var rest := superseded;
    while rest != {}
      invariant rest <= superseded && r.Keys == requests.Keys
      invariant forall id :: id in requests ==>
                  r[id] == if id in superseded - rest then ExpiredFor(requests[id], reason) else requests[id]
      decreases rest
    {
      var id :| id in rest;
      r := r[id := ExpiredFor(r[id], reason)];
      rest := rest - {id};
    }
  }
}
