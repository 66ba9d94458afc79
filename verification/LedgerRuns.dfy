/** What every transaction keeps, and what whole runs of the ledger guarantee. */
module LedgerRuns {
  import opened Json
  import opened ApprovalPolicy
  import opened ApprovalLedger

  // --------------------------------------------------------------- invariant

  /** At most one row per approval and per captured call. */
  predicate RowsUnique(s: Ledger) {
    forall b, c |
      b in s.bindings && c in s.bindings && (b.approvalId == c.approvalId || ForCall(b, c.jobId, c.toolCallId)) ::
      b == c
  }

  /** Every captured call agrees with its request. */
  predicate RowsAgree(s: Ledger) {
    forall b :: b in s.bindings ==> b.approvalId in s.requests && Agrees(b, s.requests[b.approvalId])
  }

  /** A call and nonce are linked from at most one root turn of a job. */
  predicate RefsUnique(s: Ledger) {
    forall j, k, ref |
      j in s.turns && k in s.turns && j.jobId == k.jobId && ref in s.turns[j].refs && ref in s.turns[k].refs ::
      j == k
  }

  /** A root turn lists a call and nonce once. */
  predicate RefsDistinct(s: Ledger) {
    forall k, i, j :: k in s.turns && 0 <= i < j < |s.turns[k].refs| ==> s.turns[k].refs[i] != s.turns[k].refs[j]
  }

  /** Every stored vote decided its request, alone. */
  predicate VotesFinal(s: Ledger) {
    && (forall v :: v in s.votes ==>
          s.votes[v].approvalId in s.requests && Terminal(s.requests[s.votes[v].approvalId].state))
    && (forall v, w :: v in s.votes && w in s.votes && s.votes[v].approvalId == s.votes[w].approvalId ==> v == w)
  }

  predicate GrantOk(s: Ledger, g: Grant) {
    && g.via in s.requests
    && (g.via in s.fences ==> g.revoked)
    && var r := s.requests[g.via];
       r.constraint.Standard? && !r.reuseMode.Disabled? && (r.reuseMode.Exact? ==> r.reuseKey == Some(g.scope))
  }

  predicate GrantsOk(s: Ledger) {
    forall g :: g in s.grants ==> GrantOk(s, s.grants[g])
  }

  predicate RequestsValid(s: Ledger) {
    forall id :: id in s.requests ==> ValidRequest(s.requests[id])
  }

  predicate Inv(s: Ledger) {
    RowsUnique(s) && RowsAgree(s) && RefsUnique(s) && RefsDistinct(s) && VotesFinal(s) && GrantsOk(s)
    && RequestsValid(s)
  }

  // --------------------------------------------------- what a step may change

  predicate RequestEvolves(r: Request, r': Request) {
    && SameFrozenIdentity(r, r')
    && r'.userId == r.userId && r'.toolName == r.toolName && r'.sessionId == r.sessionId
    && r'.requestId == r.requestId && r'.runId == r.runId && r'.channel == r.channel
    && (Terminal(r.state) ==> Terminal(r'.state))
    && r.version <= r'.version
    && ((r.state, r.deciderId, r.decision, r.reason) != (r'.state, r'.deciderId, r'.decision, r'.reason)
        ==> r.version < r'.version)
  }

  /** A claimed call stays exactly as captured; only its result may be filled in, once. */
  ghost predicate ClaimKept(b: Binding, after: set<Binding>) {
    b in after || (b.execution.Claimed? && exists result :: CompletedWith(b, result) in after)
  }

  function CompletedWith(b: Binding, result: string): Binding
    requires b.execution.Claimed?
  {
    b.(execution := Completed(b.execution.token, b.execution.decisionVersion, result))
  }

  ghost predicate Evolves(s: Ledger, s': Ledger) {
    && (forall id :: id in s.requests ==> id in s'.requests && RequestEvolves(s.requests[id], s'.requests[id]))
    && (forall b :: b in s.bindings && !b.execution.Unclaimed? ==> ClaimKept(b, s'.bindings))
    && (forall k :: k in s.turns ==> k in s'.turns && TurnEvolves(s.turns[k], s'.turns[k]))
    && (forall v :: v in s.votes ==> v in s'.votes && s'.votes[v] == s.votes[v])
    && (forall g :: g in s.grants ==> g in s'.grants && GrantEvolves(s.grants[g], s'.grants[g]))
    && s.fences <= s'.fences
  }

  /** The authority a turn was admitted with is never rewritten; links only accumulate. */
  predicate TurnEvolves(t: RootTurn, t': RootTurn) {
    t'.(refs := t.refs) == t && t.refs <= t'.refs
  }

  predicate GrantEvolves(g: Grant, g': Grant) {
    g'.(revoked := g.revoked) == g && (g.revoked ==> g'.revoked)
  }

  lemma EvolvesReflexive(s: Ledger)
    ensures Evolves(s, s)
  {
  }

  lemma ClaimKeptTransitive(b: Binding, s': Ledger, s'': Ledger)
    requires !b.execution.Unclaimed? && ClaimKept(b, s'.bindings)
    requires forall c :: c in s'.bindings && !c.execution.Unclaimed? ==> ClaimKept(c, s''.bindings)
    ensures ClaimKept(b, s''.bindings)
  {
    if b !in s'.bindings {
      var result :| CompletedWith(b, result) in s'.bindings;
      assert ClaimKept(CompletedWith(b, result), s''.bindings);
    }
  }

  lemma EvolvesTransitive(s: Ledger, s': Ledger, s'': Ledger)
    requires Evolves(s, s') && Evolves(s', s'')
    ensures Evolves(s, s'')
  {
    hide ClaimKept;
    forall b | b in s.bindings && !b.execution.Unclaimed?
      ensures ClaimKept(b, s''.bindings)
    {
      ClaimKeptTransitive(b, s', s'');
    }
    forall k | k in s.turns
      ensures k in s''.turns && TurnEvolves(s.turns[k], s''.turns[k])
    {
      assert TurnEvolves(s.turns[k], s'.turns[k]) && TurnEvolves(s'.turns[k], s''.turns[k]);
    }
    forall g | g in s.grants
      ensures g in s''.grants && GrantEvolves(s.grants[g], s''.grants[g])
    {
      assert GrantEvolves(s.grants[g], s'.grants[g]) && GrantEvolves(s'.grants[g], s''.grants[g]);
    }
    forall id | id in s.requests
      ensures id in s''.requests && RequestEvolves(s.requests[id], s''.requests[id])
    {
      RequestEvolvesTransitive(s.requests[id], s'.requests[id], s''.requests[id]);
    }
  }

  lemma RequestEvolvesTransitive(r: Request, r': Request, r'': Request)
    requires RequestEvolves(r, r') && RequestEvolves(r', r'')
    ensures RequestEvolves(r, r'')
  {
  }

  ghost predicate Good(s: Ledger, s': Ledger) {
    Inv(s') && Evolves(s, s')
  }

  // ------------------------------------------------- one table at a time

  lemma SameRowsAndTurns(s: Ledger, s': Ledger)
    requires s'.bindings == s.bindings && s'.turns == s.turns && RowsUnique(s) && RefsUnique(s) && RefsDistinct(s)
    ensures RowsUnique(s') && RefsUnique(s') && RefsDistinct(s')
  {
  }

  /** Only requests changed: each evolved and still agrees with its captured call. */
  lemma RequestsChanged(s: Ledger, s': Ledger)
    requires Inv(s) && s' == s.(requests := s'.requests)
    requires forall id :: id in s.requests ==> id in s'.requests && RequestEvolves(s.requests[id], s'.requests[id])
    requires RequestsValid(s') && RowsAgree(s')
    ensures Good(s, s')
  {
    hide RowsUnique;
    hide RefsUnique;
    hide RefsDistinct;
    hide RowsAgree;
    hide RequestsValid;
    hide ValidRequest;
    hide Agrees;
    SameRowsAndTurns(s, s');
    forall g | g in s'.grants
      ensures GrantOk(s', s'.grants[g])
    {
      assert GrantOk(s, s.grants[g]);
    }
    EvolvesReflexive(s);
  }

  lemma BindingsChanged(s: Ledger, s': Ledger)
    requires Inv(s) && s' == s.(bindings := s'.bindings)
    requires RowsUnique(s') && RowsAgree(s')
    requires forall b :: b in s.bindings && !b.execution.Unclaimed? ==> ClaimKept(b, s'.bindings)
    ensures Good(s, s')
  {
    hide RowsUnique;
    hide RowsAgree;
    hide ClaimKept;
    hide ValidRequest;
    forall g | g in s'.grants
      ensures GrantOk(s', s'.grants[g])
    {
      assert GrantOk(s, s.grants[g]);
    }
    EvolvesReflexive(s);
  }

  lemma TurnsChanged(s: Ledger, s': Ledger)
    requires Inv(s) && s' == s.(turns := s'.turns)
    requires RefsUnique(s') && RefsDistinct(s')
    requires forall k :: k in s.turns ==> k in s'.turns && TurnEvolves(s.turns[k], s'.turns[k])
    ensures Good(s, s')
  {
    hide RefsUnique;
    hide RefsDistinct;
    hide TurnEvolves;
    hide ClaimKept;
    hide ValidRequest;
    forall g | g in s'.grants
      ensures GrantOk(s', s'.grants[g])
    {
      assert GrantOk(s, s.grants[g]);
    }
    forall b | b in s.bindings
      ensures ClaimKept(b, s'.bindings)
    {
      KeptByStaying(b, s'.bindings);
    }
    EvolvesReflexive(s);
  }

  lemma KeptByStaying(b: Binding, after: set<Binding>)
    requires b in after
    ensures ClaimKept(b, after)
  {
  }

  lemma VotesChanged(s: Ledger, s': Ledger)
    requires Inv(s) && s' == s.(votes := s'.votes)
    requires VotesFinal(s')
    requires forall v :: v in s.votes ==> v in s'.votes && s'.votes[v] == s.votes[v]
    ensures Good(s, s')
  {
    hide VotesFinal;
    hide ValidRequest;
    forall g | g in s'.grants
      ensures GrantOk(s', s'.grants[g])
    {
      assert GrantOk(s, s.grants[g]);
    }
    EvolvesReflexive(s);
  }

  lemma GrantsChanged(s: Ledger, s': Ledger)
    requires Inv(s) && s' == s.(grants := s'.grants, fences := s'.fences)
    requires GrantsOk(s') && s.fences <= s'.fences
    requires forall g :: g in s.grants ==> g in s'.grants && GrantEvolves(s.grants[g], s'.grants[g])
    ensures Good(s, s')
  {
    hide GrantsOk;
    hide GrantEvolves;
    hide ValidRequest;
    EvolvesReflexive(s);
  }

  /** Two good changes, one after the other. */
  lemma GoodThen(s: Ledger, s': Ledger, s'': Ledger)
    requires Good(s, s') && Good(s', s'')
    ensures Good(s, s'')
  {
    hide Inv;
    hide Evolves;
    EvolvesTransitive(s, s', s'');
  }

  lemma NothingChanged(s: Ledger)
    requires Inv(s)
    ensures Good(s, s)
  {
    hide Inv;
    EvolvesReflexive(s);
  }

  // ------------------------------------------------- steps that touch requests

  lemma RequestChange(s: Ledger, id: string, r': Request)
    requires Inv(s) && id in s.requests && ValidRequest(r')
    requires RequestEvolves(s.requests[id], r')
    requires forall b :: b in s.bindings && b.approvalId == id ==> Agrees(b, r')
    ensures Good(s, s.(requests := s.requests[id := r']))
  {
    hide Good;
    hide ValidRequest;
    hide Agrees;
    hide GrantsOk;
    hide VotesFinal;
    hide RefsUnique;
    hide RefsDistinct;
    assert forall x :: x in s.requests ==> RequestEvolves(s.requests[x], s.requests[x]);
    RequestsChanged(s, s.(requests := s.requests[id := r']));
  }

  lemma CreateGood(s: Ledger, id: string, r: Request)
    requires Inv(s)
    ensures Good(s, After(s, CreateRequest(s, id, r)))
  {
    hide Good;
    hide ValidRequest;
    hide Agrees;
    hide GrantsOk;
    hide VotesFinal;
    hide RefsUnique;
    hide RefsDistinct;
    NothingChanged(s);
    if CreateRequest(s, id, r).Done? {
      assert forall x :: x in s.requests ==> RequestEvolves(s.requests[x], s.requests[x]);
      RequestsChanged(s, s.(requests := s.requests[id := r]));
    }
  }

  lemma InvAt(s: Ledger, id: string)
    requires Inv(s) && id in s.requests
    ensures ValidRequest(s.requests[id])
    ensures forall b :: b in s.bindings && b.approvalId == id ==> Agrees(b, s.requests[id])
  {
  }

  lemma WriteGood(s: Ledger, id: string, u: Request)
    requires Inv(s) && id in s.requests && u.version > s.requests[id].version
    ensures Good(s, After(s, WriteTransition(s, id, u)))
  {
    hide Inv;
    hide Good;
    NothingChanged(s);
    var o := WriteTransition(s, id, u);
    if o.Done? {
      InvAt(s, id);
      RequestChange(s, id, o.value.requests[id]);
    }
  }

  lemma TransitionGood(s: Ledger, id: string, state: ApprovalState, expected: Option<int>,
                       decider: Option<string>, decision: Option<ApprovalState>, reason: Option<string>)
    requires Inv(s)
    ensures Good(s, After(s, Transition(s, id, state, expected, decider, decision, reason)))
  {
    hide Inv;
    hide Good;
    hide WriteTransition;
    NothingChanged(s);
    if id in s.requests {
      var r := s.requests[id];
      WriteGood(s, id, r.(state := state, version := r.version + 1,
                          deciderId := OrElse(decider, r.deciderId),
                          decision := if decision.None? && Terminal(state) then Some(state) else decision,
                          reason := OrElse(reason, r.reason)));
    }
  }

  lemma CancelGood(s: Ledger, id: string, owner: Owner, decider: Option<string>, why: string)
    requires Inv(s)
    ensures Good(s, After(s, Cancel(s, id, owner, decider, why)))
  {
    hide Inv;
    hide Good;
    hide WriteTransition;
    NothingChanged(s);
    if id in s.requests {
      var r := s.requests[id];
      WriteGood(s, id, r.(state := Denied, version := r.version + 1, deciderId := OrElse(decider, r.deciderId),
                          decision := Some(Denied), reason := Some(why)));
    }
  }

  /** Revoking grants disturbs nothing else. */
  lemma RevokeGood(s: Ledger, id: string)
    requires Inv(s)
    ensures Good(s, s.(grants := RevokedVia(s.grants, id)))
  {
    hide RowsUnique;
    hide RowsAgree;
    hide RefsUnique;
    hide RefsDistinct;
    hide VotesFinal;
    hide RequestsValid;
    hide Good;
    var s' := s.(grants := RevokedVia(s.grants, id));
    forall g | g in s'.grants
      ensures GrantOk(s', s'.grants[g])
    {
      assert GrantOk(s, s.grants[g]);
    }
    GrantsChanged(s, s');
  }

  lemma AbortGood(s: Ledger, id: string, owner: Owner, why: string)
    requires Inv(s)
    ensures Good(s, After(s, Abort(s, id, owner, why)))
  {
    hide Inv;
    hide Evolves;
    NothingChanged(s);
    if id in s.requests && Owns(owner, s.requests[id]) {
      var r := s.requests[id];
      var denied := if Terminal(r.state) then r
                    else r.(state := Denied, version := r.version + 1, decision := Some(Denied), reason := Some(why));
      var s1 := s.(requests := s.requests[id := denied]);
      InvAt(s, id);
      RequestChange(s, id, denied);
      RevokeGood(s1, id);
      GoodThen(s, s1, s1.(grants := RevokedVia(s1.grants, id)));
    }
  }

  lemma OpenHasNoVote(s: Ledger, id: string)
    requires Inv(s) && id in s.requests && !Terminal(s.requests[id].state)
    ensures forall v :: v in s.votes ==> s.votes[v].approvalId != id
  {
  }

  lemma VotePlaced(s: Ledger, voteId: string, vote: Vote)
    requires Inv(s) && voteId !in s.votes && vote.approvalId in s.requests
             && Terminal(s.requests[vote.approvalId].state)
    requires forall v :: v in s.votes ==> s.votes[v].approvalId != vote.approvalId
    ensures Good(s, s.(votes := s.votes[voteId := vote]))
  {
    hide Good;
    hide RowsAgree;
    hide RowsUnique;
    hide RefsUnique;
    hide RefsDistinct;
    hide GrantsOk;
    hide RequestsValid;
    VotesChanged(s, s.(votes := s.votes[voteId := vote]));
  }

  /** A vote finds no earlier vote on an open request, so the conflict branch is unreachable. */
  lemma VoteGood(s: Ledger, voteId: string, vote: Vote, reason: Option<string>)
    requires Inv(s) && vote.decision in {Approved, Denied}
    ensures Good(s, After(s, RecordVote(s, voteId, vote, reason)))
    ensures RecordVote(s, voteId, vote, reason) != Raised(VoteConflict)
  {
    hide Inv;
    hide Evolves;
    NothingChanged(s);
    var id := vote.approvalId;
    if id in s.requests && !Terminal(s.requests[id].state) {
      OpenHasNoVote(s, id);
      if voteId !in s.votes {
        var r := s.requests[id];
        var r' := r.(state := vote.decision, version := r.version + 1, deciderId := Some(vote.deciderId),
                     decision := Some(vote.decision), reason := reason);
        InvAt(s, id);
        RequestChange(s, id, r');
        var s1 := s.(requests := s.requests[id := r']);
        VotePlaced(s1, voteId, vote);
        GoodThen(s, s1, s1.(votes := s1.votes[voteId := vote]));
      }
    }
  }

  lemma UpdateGood(s: Ledger, id: string, u: Request)
    requires Inv(s)
    ensures Good(s, After(s, UpdateRequest(s, id, u)))
  {
    hide Good;
    NothingChanged(s);
    var o := UpdateRequest(s, id, u);
    if o.Done? {
      InvAt(s, id);
      hide Inv;
      var r' := o.value.requests[id];
      forall b | b in s.bindings && b.approvalId == id
        ensures Agrees(b, r')
      {
        assert b in RowsForApproval(s, id);
      }
      RequestChange(s, id, r');
    }
  }

  // ------------------------------------------------- steps that touch bindings

  lemma NoneCollide(s: Ledger, id: string, jobId: string, toolCallId: string)
    requires Colliding(s, id, jobId, toolCallId) == {}
    ensures forall c :: c in s.bindings ==> c.approvalId != id && !ForCall(c, jobId, toolCallId)
  {
    assert forall c :: c in s.bindings && (c.approvalId == id || ForCall(c, jobId, toolCallId)) ==>
        c in Colliding(s, id, jobId, toolCallId);
  }

  /** Adding a row that collides with none and agrees with its request. */
  lemma RowAdded(s: Ledger, b: Binding)
    requires Inv(s) && b.approvalId in s.requests && Agrees(b, s.requests[b.approvalId])
    requires Colliding(s, b.approvalId, b.jobId, b.toolCallId) == {}
    ensures Good(s, s.(bindings := s.bindings + {b}))
  {
    hide Good;
    hide Agrees;
    var s' := s.(bindings := s.bindings + {b});
    NoneCollide(s, b.approvalId, b.jobId, b.toolCallId);
    BindingsChanged(s, s');
  }

  /** Removing unclaimed rows. */
  lemma RowsRemoved(s: Ledger, rest: set<Binding>)
    requires Inv(s) && rest <= s.bindings
    requires forall b :: b in s.bindings && b !in rest ==> b.execution.Unclaimed?
    ensures Good(s, s.(bindings := rest))
  {
    hide Good;
    hide Agrees;
    BindingsChanged(s, s.(bindings := rest));
  }

  lemma RecordGood(s: Ledger, p: Payload)
    requires Inv(s)
    ensures Good(s, After(s, RecordBinding(s, p)))
  {
    hide Good;
    hide Inv;
    hide Colliding;
    NothingChanged(s);
    if p.approvalId in s.requests && Colliding(s, p.approvalId, p.jobId, p.toolCallId) == {} {
      var b := NewBinding(p, p.nonce, s.requests[p.approvalId].argsHash);
      if Agrees(b, s.requests[p.approvalId]) {
        RowAdded(s, b);
      }
    }
  }

  /** The requests a park leaves behind. */
  lemma ParkRequests(s: Ledger, p: Payload, generation: Option<string>, id: string)
    requires Inv(s) && Park(s, p, generation).Done? && id in s.requests
    ensures var s' := Park(s, p, generation).value.ledger;
            && id in s'.requests
            && RequestEvolves(s.requests[id], s'.requests[id])
            && ValidRequest(s'.requests[id])
            && s'.requests[id].argsHash == s.requests[id].argsHash
            && (id != p.approvalId ==> s'.requests[id].toolCallId == s.requests[id].toolCallId)
  {
    hide Colliding;
    hide PublishedNonce;
    hide SupersededIds;
    hide RowRefuses;
  }

  lemma ParkUnbound(s: Ledger, p: Payload, requests: map<string, Request>)
    requires Inv(s) && requests.Keys == s.requests.Keys && Colliding(s, p.approvalId, p.jobId, p.toolCallId) == {}
    requires forall id :: id in s.requests ==>
               && RequestEvolves(s.requests[id], requests[id])
               && ValidRequest(requests[id])
               && requests[id].argsHash == s.requests[id].argsHash
               && (id != p.approvalId ==> requests[id].toolCallId == s.requests[id].toolCallId)
    ensures Good(s, s.(requests := requests))
  {
    hide Good;
    hide ValidRequest;
    var s' := s.(requests := requests);
    NoneCollide(s, p.approvalId, p.jobId, p.toolCallId);
    RequestsChanged(s, s');
  }

  lemma ParkGood(s: Ledger, p: Payload, generation: Option<string>)
    requires Inv(s)
    ensures match Park(s, p, generation) case Done(x) => Good(s, x.ledger) case Raised(_) => true
  {
    var o := Park(s, p, generation);
    if o.Done? {
      var s' := o.value.ledger;
      forall id | id in s.requests
        ensures id in s'.requests && RequestEvolves(s.requests[id], s'.requests[id]) && ValidRequest(s'.requests[id])
        ensures s'.requests[id].argsHash == s.requests[id].argsHash
        ensures id != p.approvalId ==> s'.requests[id].toolCallId == s.requests[id].toolCallId
      {
        ParkRequests(s, p, generation, id);
      }
      var rows := Colliding(s, p.approvalId, p.jobId, p.toolCallId);
      assert forall b :: b in rows ==> !RowRefuses(s, b, p, generation);
      var s1 := s.(bindings := s.bindings - rows);
      var s2 := s1.(requests := s'.requests);
      var b := NewBinding(p, PublishedNonce(s, p, generation), s.requests[p.approvalId].argsHash);
      ParkIsThreeChanges(s, s', p, b);
      hide Good;
      hide Inv;
      GoodThen(s, s1, s2);
      GoodThen(s, s2, s');
    }
  }

  lemma ParkIsThreeChanges(s: Ledger, s': Ledger, p: Payload, b: Binding)
    requires Inv(s) && p.approvalId in s.requests && s'.requests.Keys == s.requests.Keys
    requires b.approvalId == p.approvalId && b.jobId == p.jobId && b.toolCallId == p.toolCallId
    requires s' == s.(requests := s'.requests, bindings := s.bindings - Colliding(s, p.approvalId, p.jobId,
                                                                                  p.toolCallId) + {b})
    requires Agrees(b, s'.requests[p.approvalId])
    requires forall c :: c in Colliding(s, p.approvalId, p.jobId, p.toolCallId) ==> c.execution.Unclaimed?
    requires forall id :: id in s.requests ==>
               && RequestEvolves(s.requests[id], s'.requests[id])
               && ValidRequest(s'.requests[id])
               && s'.requests[id].argsHash == s.requests[id].argsHash
               && (id != p.approvalId ==> s'.requests[id].toolCallId == s.requests[id].toolCallId)
    ensures var s1 := s.(bindings := s.bindings - Colliding(s, p.approvalId, p.jobId, p.toolCallId));
            var s2 := s1.(requests := s'.requests);
            Good(s, s1) && Good(s1, s2) && Good(s2, s')
  {
    hide Evolves;
    hide RequestEvolves;
    hide ValidRequest;
    hide Agrees;
    var rows := Colliding(s, p.approvalId, p.jobId, p.toolCallId);
    var s1 := s.(bindings := s.bindings - rows);
    RowsRemoved(s, s1.bindings);
    assert Colliding(s1, p.approvalId, p.jobId, p.toolCallId) == {};
    ParkUnbound(s1, p, s'.requests);
    var s2 := s1.(requests := s'.requests);
    assert Colliding(s2, p.approvalId, p.jobId, p.toolCallId) == {};
    RowAdded(s2, b);
    assert s' == s2.(bindings := s2.bindings + {b});
  }

  lemma SupersedeGood(s: Ledger, predecessor: string, successor: string, pending: bool)
    requires Inv(s)
    ensures Good(s, After(s, Supersede(s, predecessor, successor, pending)))
  {
    hide Inv;
    hide Evolves;
    NothingChanged(s);
    var o := Supersede(s, predecessor, successor, pending);
    if o.Done? {
      var s1 := s.(bindings := o.value.bindings);
      RowsRemoved(s, s1.bindings);
      if predecessor in s.requests && Undecided(s.requests[predecessor]) {
        InvAt(s1, predecessor);
        RequestChange(s1, predecessor, ExpiredFor(s.requests[predecessor], "superseded by " + successor));
        GoodThen(s, s1, o.value);
      }
    }
  }

  /** The stored binding, read by its own identity, always verifies. */
  lemma StoredBindingVerifies(s: Ledger, b: Binding)
    requires Inv(s) && b in s.bindings
    ensures ReadBinding(s, b.jobId, b.toolCallId, b.nonce, b.tenant) == Done(b)
    ensures VerifyAttempt(s, b) == Done(b)
  {
    var rows := RowsForCall(s, b.jobId, b.toolCallId);
    assert b in rows;
    assert AnyRow(rows).value == b;
  }

  lemma VerifiedIsStored(s: Ledger, b: Binding)
    requires VerifyAttempt(s, b).Done?
    ensures VerifyAttempt(s, b).value in s.bindings && SameCapture(VerifyAttempt(s, b).value, b)
  {
  }

  lemma ExecutionGood(s: Ledger, b: Binding, execution: Execution)
    requires Inv(s) && b in s.bindings
    requires b.execution.Unclaimed?
             || (b.execution.Claimed? && execution.Completed? && execution.token == b.execution.token
                 && execution.decisionVersion == b.execution.decisionVersion)
    ensures Good(s, Replaced(s, b, execution))
  {
    hide Good;
    var s' := Replaced(s, b, execution);
    var b' := b.(execution := execution);
    forall c | c in s.bindings && !c.execution.Unclaimed?
      ensures ClaimKept(c, s'.bindings)
    {
      if c == b {
        assert b' == CompletedWith(b, execution.result);
      }
    }
    BindingsChanged(s, s');
  }

  lemma ClaimGood(s: Ledger, b: Binding, version: int, token: string)
    requires Inv(s)
    ensures match Claim(s, b, version, token) case Done(Reserved(s')) => Good(s, s') case _ => true
  {
    hide Inv;
    hide Good;
    var v := VerifyAttempt(s, b);
    if v.Done? && v.value.execution.Unclaimed? {
      VerifiedIsStored(s, b);
      ExecutionGood(s, v.value, Claimed(token, version));
    }
  }

  lemma CompleteGood(s: Ledger, b: Binding, version: int, token: string, result: string)
    requires Inv(s)
    ensures Good(s, After(s, Complete(s, b, version, token, result)))
  {
    hide Inv;
    hide Good;
    NothingChanged(s);
    var v := VerifyAttempt(s, b);
    if v.Done? && v.value.execution.Claimed? {
      VerifiedIsStored(s, b);
      ExecutionGood(s, v.value, Completed(v.value.execution.token, v.value.execution.decisionVersion, result));
    }
  }

  // ---------------------------------------------- root turns, grants and fences

  lemma TurnGood(s: Ledger, k: TurnKey, tenant: string, authority: string, generation: string)
    requires Inv(s)
    ensures Good(s, After(s, RecordTurn(s, k, tenant, authority, generation)))
  {
    hide Good;
    NothingChanged(s);
    var s' := After(s, RecordTurn(s, k, tenant, authority, generation));
    hide RowsUnique;
    hide RowsAgree;
    hide VotesFinal;
    hide GrantsOk;
    hide RequestsValid;
    assert forall j :: j in s.turns ==> TurnEvolves(s.turns[j], s.turns[j]);
    TurnsChanged(s, s');
  }

  lemma LinkGood(s: Ledger, k: TurnKey, toolCallId: string, nonce: string, tenant: string)
    requires Inv(s)
    ensures Good(s, After(s, LinkTurn(s, k, toolCallId, nonce, tenant)))
  {
    hide Good;
    hide RowsUnique;
    hide RowsAgree;
    hide VotesFinal;
    hide GrantsOk;
    hide RequestsValid;
    NothingChanged(s);
    var o := LinkTurn(s, k, toolCallId, nonce, tenant);
    if o.Done? && o.value != s {
      LinkIsNew(s, k, toolCallId, nonce, tenant);
      RefAdded(s, k, Ref(toolCallId, nonce));
    }
  }

  lemma LinkIsNew(s: Ledger, k: TurnKey, toolCallId: string, nonce: string, tenant: string)
    requires LinkTurn(s, k, toolCallId, nonce, tenant).Done?
    ensures forall j :: j in s.turns && j.jobId == k.jobId && Ref(toolCallId, nonce) in s.turns[j].refs ==> j == k
  {
    assert forall j: TurnKey :: j.jobId == k.jobId && j.turnId == k.turnId ==> j == k;
  }

  lemma RefAdded(s: Ledger, k: TurnKey, ref: Ref)
    requires Inv(s) && k in s.turns
    requires forall j :: j in s.turns && j.jobId == k.jobId && ref in s.turns[j].refs ==> j == k
    requires ref !in s.turns[k].refs
    ensures Good(s, s.(turns := s.turns[k := s.turns[k].(refs := s.turns[k].refs + [ref])]))
  {
    hide Good;
    hide RowsUnique;
    hide RowsAgree;
    hide VotesFinal;
    hide GrantsOk;
    hide RequestsValid;
    var s' := s.(turns := s.turns[k := s.turns[k].(refs := s.turns[k].refs + [ref])]);
    assert forall x :: x in s'.turns[k].refs <==> x in s.turns[k].refs || x == ref;
    assert forall j :: j in s.turns ==> TurnEvolves(s.turns[j], s'.turns[j]);
    TurnsChanged(s, s');
  }

  lemma GrantGood(s: Ledger, grantId: string, g: Grant)
    requires Inv(s)
    ensures Good(s, After(s, CreateGrant(s, grantId, g)))
  {
    hide RowsUnique;
    hide RowsAgree;
    hide RefsUnique;
    hide RefsDistinct;
    hide VotesFinal;
    hide RequestsValid;
    hide Good;
    NothingChanged(s);
    var s' := After(s, CreateGrant(s, grantId, g));
    forall x | x in s'.grants
      ensures GrantOk(s', s'.grants[x])
    {
      if x in s.grants {
        assert GrantOk(s, s.grants[x]);
      }
    }
    GrantsChanged(s, s');
  }

  lemma RevokeOneGood(s: Ledger, grantId: string)
    requires Inv(s)
    ensures Good(s, RevokeGrant(s, grantId))
  {
    hide RowsUnique;
    hide RowsAgree;
    hide RefsUnique;
    hide RefsDistinct;
    hide VotesFinal;
    hide RequestsValid;
    hide Good;
    var s' := RevokeGrant(s, grantId);
    forall x | x in s'.grants
      ensures GrantOk(s', s'.grants[x])
    {
      assert GrantOk(s, s.grants[x]);
    }
    GrantsChanged(s, s');
  }

  lemma FenceGood(s: Ledger, id: string, owner: Owner)
    requires Inv(s)
    ensures Good(s, After(s, Fence(s, id, owner)))
  {
    hide RowsUnique;
    hide RowsAgree;
    hide RefsUnique;
    hide RefsDistinct;
    hide VotesFinal;
    hide RequestsValid;
    hide Owns;
    hide Good;
    NothingChanged(s);
    var s' := After(s, Fence(s, id, owner));
    forall x | x in s'.grants
      ensures GrantOk(s', s'.grants[x])
    {
      assert GrantOk(s, s.grants[x]);
    }
    GrantsChanged(s, s');
  }
}
