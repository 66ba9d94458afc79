/** Re-issuing a parked call: exactly when it succeeds, and exactly what it writes. */
module Reissues {
  import opened Json
  import opened ApprovalPolicy
  import opened ApprovalLedger
  import opened LedgerRuns
  import opened LedgerGuarantees

  /** Some root turn of the job links this call with this nonce. */
  predicate Linked(s: Ledger, jobId: string, toolCallId: string, nonce: string) {
    exists j :: j in s.turns && j.jobId == jobId && Ref(toolCallId, nonce) in s.turns[j].refs
  }

  /** A root turn of the tenant links the captured call and was admitted under another generation. */
  predicate FromOtherGeneration(s: Ledger, b: Binding, generation: string) {
    exists k :: k in s.turns && k.jobId == b.jobId && s.turns[k].tenant == b.tenant
                && Ref(b.toolCallId, b.nonce) in s.turns[k].refs && s.turns[k].generation != generation
  }

  /** The captured call is still undecided or approved, so its approval must be expired. */
  predicate StillOpen(s: Ledger, b: Binding) {
    b.approvalId in s.requests && s.requests[b.approvalId].state in {Created, PendingUser, Approved}
  }

  /** The captured call may leave its approval: unexecuted, described by the request being
      re-issued, and either from another generation or already refused. */
  predicate Movable(s: Ledger, q: Reissue, b: Binding) {
    && b.execution.Unclaimed?
    && q.approvalId in s.requests && b.approvalId in s.requests
    && s.requests[q.approvalId].userId == b.tenant && s.requests[q.approvalId].toolName == b.toolName
    && (if StillOpen(s, b) then FromOtherGeneration(s, b, q.generation)
        else s.requests[b.approvalId].state in {Denied, AutoDenied, Expired})
  }

  /** A call that leaves an open approval gets the drawn nonce; a refused one keeps its own. */
  function NonceAfter(s: Ledger, m: Minted, b: Binding): string {
    if StillOpen(s, b) then m.nonce else b.nonce
  }

  function MovedRow(s: Ledger, q: Reissue, m: Minted, b: Binding): Binding
    requires q.approvalId in s.requests
  {
    b.(approvalId := m.approvalId, nonce := NonceAfter(s, m, b), argsHash := s.requests[q.approvalId].argsHash)
  }

  /** The requests after the captured call left its approval, `successor` beside them. */
  function MovedRequests(s: Ledger, m: Minted, b: Binding, successor: Request): map<string, Request> {
    var kept := if StillOpen(s, b)
                then s.requests[b.approvalId := ExpiredFor(s.requests[b.approvalId], REISSUED_AS + m.approvalId)]
                else s.requests;
    kept[m.approvalId := successor]
  }

  lemma OtherGenerationIff(s: Ledger, q: Reissue, m: Minted, b: Binding)
    requires Inv(s) && Unused(s, q, m) && q.approvalId in s.requests && TurnKey(q.jobId, q.turnId) in s.turns
    requires b in s.bindings && b.approvalId in s.requests && b.jobId == q.jobId
    ensures OtherGeneration(WithSuccessor(s, q, m), b, q.generation) <==> FromOtherGeneration(s, b, q.generation)
  {
    var w := WithSuccessor(s, q, m);
    var turns := Linking(w, b.jobId, b.toolCallId, b.nonce, b.tenant);
    assert turns == Linking(s, b.jobId, b.toolCallId, b.nonce, b.tenant);
    AtMostOne(turns);
    if FromOtherGeneration(s, b, q.generation) {
      var k :| k in s.turns && k.jobId == b.jobId && s.turns[k].tenant == b.tenant
               && Ref(b.toolCallId, b.nonce) in s.turns[k].refs && s.turns[k].generation != q.generation;
      assert k in turns;
      assert forall j :: j in turns ==> j == k;
    } else if |turns| == 1 {
      assert turns != {};
      var k :| k in turns;
    }
  }

  /** The park inside a re-issue commits if and only if the call may leave its approval. */
  lemma SuccessorParks(s: Ledger, q: Reissue, m: Minted, b: Binding)
    requires Inv(s) && BindingsOwned(s) && Unused(s, q, m)
    requires q.approvalId in s.requests && TurnKey(q.jobId, q.turnId) in s.turns
    requires ReadBinding(s, q.jobId, q.toolCallId, q.nonce, q.tenant) == Done(b)
    requires ValidPayload(SuccessorPayload(q, m, b))
    ensures var w := WithSuccessor(s, q, m); var p := SuccessorPayload(q, m, b);
            && BindingsOwned(w)
            && (Park(w, p, Some(q.generation)).Done? <==> Movable(s, q, b))
            && (Movable(s, q, b) ==>
                  Park(w, p, Some(q.generation)) == Done(Parked(
                    w.(bindings := s.bindings - {b} + {MovedRow(s, q, m, b)},
                       requests := MovedRequests(s, m, b, Fresh(s.requests[q.approvalId], q.policyId).(
                                                          toolCallId := q.toolCallId))),
                    NonceAfter(s, m, b))))
  {
    var w, p := WithSuccessor(s, q, m), SuccessorPayload(q, m, b);
    ReissueParks(s, q, m, b);
    SuccessorGood(s, q, m);
    OwnedByInv(w);
    InvRow(s, b);
    OtherGenerationIff(s, q, m, b);
    hide ReadBinding;
    hide Inv;
    hide Evolves;
    hide OtherGeneration;
    hide FromOtherGeneration;
    hide ValidPayload;
    hide Park;
    if Movable(s, q, b) {
      MovableParks(s, q, m, b);
    } else {
      ImmovableIsRefused(s, q, m, b);
    }
  }

  lemma ImmovableIsRefused(s: Ledger, q: Reissue, m: Minted, b: Binding)
    requires BindingsOwned(s) && Unused(s, q, m)
    requires q.approvalId in s.requests && TurnKey(q.jobId, q.turnId) in s.turns
    requires BindingsOwned(WithSuccessor(s, q, m))
    requires b in s.bindings && ForCall(b, q.jobId, q.toolCallId) && b.tenant == q.tenant
    requires b.approvalId != m.approvalId && !Movable(s, q, b)
    requires OtherGeneration(WithSuccessor(s, q, m), b, q.generation) <==> FromOtherGeneration(s, b, q.generation)
    ensures Park(WithSuccessor(s, q, m), SuccessorPayload(q, m, b), Some(q.generation)).Raised?
  {
    hide OtherGeneration;
    hide FromOtherGeneration;
    hide ValidPayload;
    hide PublishedNonce;
    hide SupersededIds;
    assert b in Colliding(WithSuccessor(s, q, m), m.approvalId, q.jobId, q.toolCallId);
  }

  lemma MovableParks(s: Ledger, q: Reissue, m: Minted, b: Binding)
    requires BindingsOwned(s) && Unused(s, q, m)
    requires q.approvalId in s.requests && TurnKey(q.jobId, q.turnId) in s.turns
    requires BindingsOwned(WithSuccessor(s, q, m))
    requires b in s.bindings && ForCall(b, q.jobId, q.toolCallId) && b.tenant == q.tenant
    requires b.approvalId != m.approvalId
    requires Colliding(WithSuccessor(s, q, m), m.approvalId, q.jobId, q.toolCallId) == {b}
    requires ValidPayload(SuccessorPayload(q, m, b)) && Movable(s, q, b)
    requires OtherGeneration(WithSuccessor(s, q, m), b, q.generation) <==> FromOtherGeneration(s, b, q.generation)
    ensures Park(WithSuccessor(s, q, m), SuccessorPayload(q, m, b), Some(q.generation)) == Done(Parked(
              WithSuccessor(s, q, m).(
              bindings := s.bindings - {b} + {MovedRow(s, q, m, b)},
              requests := MovedRequests(s, m, b, Fresh(s.requests[q.approvalId], q.policyId).(
                                                 toolCallId := q.toolCallId))),
              NonceAfter(s, m, b)))
  {
    hide OtherGeneration;
    hide FromOtherGeneration;
    hide ValidPayload;
    hide Park;
    var w, p, g := WithSuccessor(s, q, m), SuccessorPayload(q, m, b), Some(q.generation);
    assert b in Colliding(w, p.approvalId, p.jobId, p.toolCallId);
    assert StillOpen(s, b) <==> RowSuperseded(w, b, p, g);
    PublishedAs(s, q, m, b);
    assert !RowRefuses(w, b, p, g);
    var r := w.requests[m.approvalId].(toolCallId := p.toolCallId);
    var nonce := NonceAfter(s, m, b);
    assert NewBinding(p, nonce, r.argsHash) == MovedRow(s, q, m, b);
    hide PublishedNonce;
    ParkCommits(w, p, g, nonce, r);
    assert SupersededIds(w, p, g) == if StillOpen(s, b) then {b.approvalId} else {};
    hide SupersededIds;
    var gone := if StillOpen(s, b) then {b.approvalId} else {};
    assert ExpireAll(w.requests[m.approvalId := r], gone, REISSUED_AS + m.approvalId) == MovedRequests(s, m, b, r);
  }

  lemma PublishedAs(s: Ledger, q: Reissue, m: Minted, b: Binding)
    requires q.approvalId in s.requests && TurnKey(q.jobId, q.turnId) in s.turns
    requires BindingsOwned(WithSuccessor(s, q, m))
    requires b in s.bindings && ForCall(b, q.jobId, q.toolCallId) && b.approvalId in s.requests
    requires Colliding(WithSuccessor(s, q, m), m.approvalId, q.jobId, q.toolCallId) == {b}
    requires StillOpen(s, b) <==>
               RowSuperseded(WithSuccessor(s, q, m), b, SuccessorPayload(q, m, b), Some(q.generation))
    ensures PublishedNonce(WithSuccessor(s, q, m), SuccessorPayload(q, m, b), Some(q.generation)) == NonceAfter(s, m, b)
  {
    hide RowSuperseded;
    var w, p, g := WithSuccessor(s, q, m), SuccessorPayload(q, m, b), Some(q.generation);
    if StillOpen(s, b) {
      var kept := set c | c in w.bindings && RowKeepsNonce(w, c, p, g);
      assert kept <= Colliding(w, p.approvalId, p.jobId, p.toolCallId);
      assert kept == {};
    } else {
      KeptNonce(w, p, g, b);
    }
  }

  // ------------------------------------------------------- the whole re-issue

  /** The ledger a re-issue leaves: the call's row moved to the successor, the open predecessor
      expired in its favour, the successor pending, and its turn admitted under the new
      generation with the original turn's authority, linking the call once. */
  function ReissuedLedger(s: Ledger, q: Reissue, m: Minted, b: Binding): Ledger
    requires q.approvalId in s.requests && TurnKey(q.jobId, q.turnId) in s.turns
  {
    s.(bindings := s.bindings - {b} + {MovedRow(s, q, m, b)},
       requests := MovedRequests(s, m, b, s.requests[q.approvalId].(
                                          state := PendingUser, version := 1, deciderId := None, decision := None,
                                          reason := None, policyId := q.policyId, toolCallId := q.toolCallId)),
       turns := s.turns[TurnKey(q.jobId, m.turnId) :=
                        RootTurn(q.tenant, s.turns[TurnKey(q.jobId, q.turnId)].authority, q.generation,
                                 [Ref(q.toolCallId, NonceAfter(s, m, b))])])
  }

  lemma LinkedIff(s: Ledger, q: Reissue, m: Minted, parked: Ledger, nonce: string)
    requires Unused(s, q, m) && q.approvalId in s.requests && TurnKey(q.jobId, q.turnId) in s.turns
    requires parked.turns == WithSuccessor(s, q, m).turns
    ensures LinkedElsewhere(parked, TurnKey(q.jobId, m.turnId), q.toolCallId, Some(nonce))
            <==> Linked(s, q.jobId, q.toolCallId, nonce)
  {
    var k := TurnKey(q.jobId, m.turnId);
    assert forall j :: j in s.turns && j.jobId == q.jobId ==> j.turnId != m.turnId || j == k;
    if Linked(s, q.jobId, q.toolCallId, nonce) {
      var j :| j in s.turns && j.jobId == q.jobId && Ref(q.toolCallId, nonce) in s.turns[j].refs;
      assert j in parked.turns && parked.turns[j] == s.turns[j];
    }
  }

  /** The parked ledger of a movable call. */
  function ParkedLedger(s: Ledger, q: Reissue, m: Minted, b: Binding): Ledger
    requires q.approvalId in s.requests && TurnKey(q.jobId, q.turnId) in s.turns
  {
    WithSuccessor(s, q, m).(
    bindings := s.bindings - {b} + {MovedRow(s, q, m, b)},
    requests := MovedRequests(s, m, b, Fresh(s.requests[q.approvalId], q.policyId).(toolCallId := q.toolCallId)))
  }

  lemma MovedRowIsOnly(s: Ledger, q: Reissue, m: Minted, b: Binding)
    requires q.approvalId in s.requests && TurnKey(q.jobId, q.turnId) in s.turns && ForCall(b, q.jobId, q.toolCallId)
    requires Colliding(WithSuccessor(s, q, m), m.approvalId, q.jobId, q.toolCallId) == {b}
    ensures AnyRow(RowsForCall(ParkedLedger(s, q, m, b), q.jobId, q.toolCallId)) == Some(MovedRow(s, q, m, b))
  {
    var rows := RowsForCall(ParkedLedger(s, q, m, b), q.jobId, q.toolCallId);
    assert forall c :: c in s.bindings && ForCall(c, q.jobId, q.toolCallId) ==>
                         c in Colliding(WithSuccessor(s, q, m), m.approvalId, q.jobId, q.toolCallId);
    assert forall c :: c in rows ==> c == MovedRow(s, q, m, b);
    assert MovedRow(s, q, m, b) in rows;
  }

  lemma SuccessorLinks(s: Ledger, q: Reissue, m: Minted, b: Binding)
    requires Unused(s, q, m) && q.approvalId in s.requests && TurnKey(q.jobId, q.turnId) in s.turns
    requires ForCall(b, q.jobId, q.toolCallId) && b.tenant == q.tenant
    requires Colliding(WithSuccessor(s, q, m), m.approvalId, q.jobId, q.toolCallId) == {b}
    ensures var parked := ParkedLedger(s, q, m, b); var nonce := NonceAfter(s, m, b);
            var o := LinkTurn(parked, TurnKey(q.jobId, m.turnId), q.toolCallId, nonce, q.tenant);
            && (o.Done? <==> !Linked(s, q.jobId, q.toolCallId, nonce))
            && (o.Raised? ==> o == Raised(TurnLinkMismatch))
            && (o.Done? ==> o.value == parked.(turns := ReissuedLedger(s, q, m, b).turns))
  {
    MovedRowIsOnly(s, q, m, b);
    var parked, nonce := ParkedLedger(s, q, m, b), NonceAfter(s, m, b);
    LinkedIff(s, q, m, parked, nonce);
    hide RowsForCall;
    hide LinkedElsewhere;
    hide Linked;
    hide Colliding;
    hide MovedRequests;
    assert [] + [Ref(q.toolCallId, nonce)] == [Ref(q.toolCallId, nonce)];
  }

  /** The successor is published if and only if the call may move and its nonce is unlinked. */
  lemma SuccessorPublishes(s: Ledger, q: Reissue, m: Minted, b: Binding)
    requires Inv(s) && BindingsOwned(s) && Unused(s, q, m)
    requires q.approvalId in s.requests && TurnKey(q.jobId, q.turnId) in s.turns
    requires ReadBinding(s, q.jobId, q.toolCallId, q.nonce, q.tenant) == Done(b)
    requires ValidPayload(SuccessorPayload(q, m, b)) && BindingsOwned(WithSuccessor(s, q, m))
    ensures var o := PublishSuccessor(WithSuccessor(s, q, m), q, m, b);
            && (o.Done? <==> Movable(s, q, b) && !Linked(s, q.jobId, q.toolCallId, NonceAfter(s, m, b)))
            && (o.Raised? && Movable(s, q, b) ==> o == Raised(TurnLinkMismatch))
            && (o.Done? ==>
                  o.value == Reissued(ReissuedLedger(s, q, m, b), m.approvalId, NonceAfter(s, m, b), m.turnId, true))
  {
    SuccessorParks(s, q, m, b);
    ReissueParks(s, q, m, b);
    hide Park;
    hide ReadBinding;
    hide Inv;
    hide ValidPayload;
    hide Movable;
    if Movable(s, q, b) {
      SuccessorLinks(s, q, m, b);
      hide LinkTurn;
      hide Linked;
      hide Colliding;
      hide BindingsOwned;
      var linked := ParkedLedger(s, q, m, b).(turns := ReissuedLedger(s, q, m, b).turns);
      assert linked.requests[m.approvalId].version == 0;
      SuccessorPends(s, q, m, b);
    }
  }

  lemma SuccessorPends(s: Ledger, q: Reissue, m: Minted, b: Binding)
    requires q.approvalId in s.requests && TurnKey(q.jobId, q.turnId) in s.turns
    ensures var linked := ParkedLedger(s, q, m, b).(turns := ReissuedLedger(s, q, m, b).turns);
            var c := linked.requests[m.approvalId];
            WriteTransition(linked, m.approvalId, c.(state := PendingUser, version := c.version + 1))
            == Done(ReissuedLedger(s, q, m, b))
  {
    var linked := ParkedLedger(s, q, m, b).(turns := ReissuedLedger(s, q, m, b).turns);
    var c := linked.requests[m.approvalId];
    var o := WriteTransition(linked, m.approvalId, c.(state := PendingUser, version := c.version + 1));
    assert o.value.requests == ReissuedLedger(s, q, m, b).requests;
  }

  // ------------------------------------------------------------ both outcomes

  /** The captured call the re-issue names. */
  predicate Captured(s: Ledger, q: Reissue, b: Binding) {
    b in s.bindings && ForCall(b, q.jobId, q.toolCallId) && b.nonce == q.nonce && b.tenant == q.tenant
  }

  lemma ReadIff(s: Ledger, q: Reissue, b: Binding)
    requires Inv(s)
    ensures ReadBinding(s, q.jobId, q.toolCallId, q.nonce, q.tenant) == Done(b) <==> Captured(s, q, b)
  {
    if Captured(s, q, b) {
      StoredBindingVerifies(s, b);
    }
  }

  /** The predecessor was already expired for the approval that now holds the call. */
  predicate AlreadyIssued(s: Ledger, q: Reissue, a: Binding, k: TurnKey) {
    && q.approvalId in s.requests && s.requests[q.approvalId].state.Expired?
    && a in s.bindings && ForCall(a, q.jobId, q.toolCallId) && a.tenant == q.tenant
    && s.requests[q.approvalId].reason == Some(REISSUED_AS + a.approvalId)
    && k in s.turns && k.jobId == q.jobId && s.turns[k].tenant == q.tenant
    && Ref(q.toolCallId, a.nonce) in s.turns[k].refs
  }

  lemma IssuedIff(s: Ledger, q: Reissue)
    requires Inv(s) && q.approvalId in s.requests && s.requests[q.approvalId].state.Expired?
    ensures forall a, k | AlreadyIssued(s, q, a, k) ::
              SuccessorOf(s, s.requests[q.approvalId], q) == Some(Reissued(s, a.approvalId, a.nonce, k.turnId, false))
    ensures SuccessorOf(s, s.requests[q.approvalId], q).Some? ==> exists a, k :: AlreadyIssued(s, q, a, k)
  {
    var r := s.requests[q.approvalId];
    forall a, k | AlreadyIssued(s, q, a, k)
      ensures SuccessorOf(s, r, q) == Some(Reissued(s, a.approvalId, a.nonce, k.turnId, false))
    {
      OnlyRow(s, a);
      OnlyLink(s, k, q.toolCallId, a.nonce, q.tenant);
      hide Inv;
      FindsSuccessor(s, q, a, k);
    }
    if SuccessorOf(s, r, q).Some? {
      var a := AnyRow(set b | b in RowsForCall(s, q.jobId, q.toolCallId) && b.tenant == q.tenant).value;
      var k := TheTurn(Linking(s, q.jobId, q.toolCallId, a.nonce, q.tenant));
      hide Inv;
      assert AlreadyIssued(s, q, a, k);
    }
  }

  /** Everything a re-issue needs to publish a successor. */
  predicate Reissuable(s: Ledger, q: Reissue, m: Minted, b: Binding) {
    && TurnKey(q.jobId, q.turnId) in s.turns && s.turns[TurnKey(q.jobId, q.turnId)].tenant == q.tenant
    && Captured(s, q, b) && ValidPayload(SuccessorPayload(q, m, b)) && Movable(s, q, b)
    && !Linked(s, q.jobId, q.toolCallId, NonceAfter(s, m, b))
  }

  lemma BlankPayloadIsRefused(s: Ledger, q: Reissue, m: Minted, b: Binding)
    requires BindingsOwned(s) && !ValidPayload(SuccessorPayload(q, m, b))
    ensures PublishSuccessor(s, q, m, b).Raised?
  {
  }

  lemma PublishIff(s: Ledger, q: Reissue, m: Minted, b: Binding)
    requires Inv(s) && BindingsOwned(s) && Unused(s, q, m) && Captured(s, q, b) && q.approvalId in s.requests
    requires TurnKey(q.jobId, q.turnId) in s.turns && s.turns[TurnKey(q.jobId, q.turnId)].tenant == q.tenant
    ensures BindingsOwned(WithSuccessor(s, q, m))
    ensures var o := PublishSuccessor(WithSuccessor(s, q, m), q, m, b);
            && (o.Done? <==> Reissuable(s, q, m, b))
            && (o.Done? ==>
                  o.value == Reissued(ReissuedLedger(s, q, m, b), m.approvalId, NonceAfter(s, m, b), m.turnId, true))
  {
    SuccessorGood(s, q, m);
    OwnedByInv(WithSuccessor(s, q, m));
    ReadIff(s, q, b);
    hide Inv;
    hide ReadBinding;
    hide PublishSuccessor;
    hide Movable;
    hide Linked;
    hide ReissuedLedger;
    if ValidPayload(SuccessorPayload(q, m, b)) {
      SuccessorPublishes(s, q, m, b);
    } else {
      BlankPayloadIsRefused(WithSuccessor(s, q, m), q, m, b);
    }
  }

  /** Both ways a re-issue ends: it finds the approval it was already expired for, or it
      publishes a successor if and only if the call can be re-issued, or it is refused. */
  lemma ReissueOutcome(s: Ledger, q: Reissue, m: Minted)
    requires Inv(s) && BindingsOwned(s) && Unused(s, q, m)
    ensures forall a, k | AlreadyIssued(s, q, a, k) ::
              ReissueParked(s, q, m) == Done(Reissued(s, a.approvalId, a.nonce, k.turnId, false))
    ensures (forall a, k :: !AlreadyIssued(s, q, a, k)) ==>
              forall b | Captured(s, q, b) ::
                if Reissuable(s, q, m, b)
                then ReissueParked(s, q, m) == Done(Reissued(ReissuedLedger(s, q, m, b), m.approvalId,
                                                             NonceAfter(s, m, b), m.turnId, true))
                else ReissueParked(s, q, m).Raised?
    ensures (forall a, k :: !AlreadyIssued(s, q, a, k)) && (forall b :: !Captured(s, q, b)) ==>
              ReissueParked(s, q, m).Raised?
  {
    if q.approvalId in s.requests && s.requests[q.approvalId].state.Expired? {
      IssuedIff(s, q);
    }
    var read := ReadBinding(s, q.jobId, q.toolCallId, q.nonce, q.tenant);
    if read.Done? {
      ReadIff(s, q, read.value);
    }
    forall b | Captured(s, q, b) && q.approvalId in s.requests && TurnKey(q.jobId, q.turnId) in s.turns
               && s.turns[TurnKey(q.jobId, q.turnId)].tenant == q.tenant
      ensures read == Done(b) && BindingsOwned(WithSuccessor(s, q, m))
      ensures var o := PublishSuccessor(WithSuccessor(s, q, m), q, m, b);
              && (o.Done? <==> Reissuable(s, q, m, b))
              && (o.Done? ==> o.value == Reissued(ReissuedLedger(s, q, m, b), m.approvalId, NonceAfter(s, m, b),
                                                  m.turnId, true))
    {
      ReadIff(s, q, b);
      PublishIff(s, q, m, b);
    }
    forall b | Captured(s, q, b)
      ensures read == Done(b)
    {
      ReadIff(s, q, b);
    }
    hide Inv;
    hide ReadBinding;
    hide PublishSuccessor;
    hide SuccessorOf;
    hide Captured;
  }

  // ------------------------------------------------- what a re-issue promises

  lemma CreatedFrom(s: Ledger, q: Reissue, m: Minted) returns (b: Binding)
    requires Inv(s) && BindingsOwned(s) && Unused(s, q, m)
    requires ReissueParked(s, q, m).Done? && ReissueParked(s, q, m).value.created
    ensures Reissuable(s, q, m, b) && forall a, k :: !AlreadyIssued(s, q, a, k)
    ensures ReissueParked(s, q, m).value
            == Reissued(ReissuedLedger(s, q, m, b), m.approvalId, NonceAfter(s, m, b), m.turnId, true)
    ensures Inv(ReissuedLedger(s, q, m, b))
  {
    ReissueOutcome(s, q, m);
    ReissueGood(s, q, m);
    hide Inv;
    hide ReissueParked;
    hide Reissuable;
    b :| Captured(s, q, b);
  }

  /** A pending request with the identity of the one re-issued, under the new policy. */
  predicate Succeeds(r: Request, r': Request, q: Reissue) {
    && r'.state.PendingUser? && r'.decision.None? && r'.policyId == q.policyId && r'.toolCallId == q.toolCallId
    && SameFrozenIdentity(r, r') && r'.argsHash == r.argsHash
    && (r'.userId, r'.toolName, r'.requestId, r'.runId, r'.sessionId, r'.channel)
       == (r.userId, r.toolName, r.requestId, r.runId, r.sessionId, r.channel)
  }

  /** One decidable approval for the captured call: the approval that held it is decided, the
      successor is pending, carries the identity of the request re-issued and holds the call's
      only row, with the captured operands; the turn the call came from is untouched, and the
      successor's turn carries its authority into the new generation, linking the call alone. */
  ghost predicate OneApproval(s: Ledger, q: Reissue, x: Reissued) {
    var s' := x.ledger; var k, k' := TurnKey(q.jobId, q.turnId), TurnKey(q.jobId, x.turnId);
    && q.approvalId in s.requests && x.approvalId in s'.requests
    && Succeeds(s.requests[q.approvalId], s'.requests[x.approvalId], q)
    && k in s.turns && k in s'.turns && s'.turns[k] == s.turns[k]
    && k' in s'.turns && k' !in s.turns
    && s'.turns[k'] == RootTurn(q.tenant, s.turns[k].authority, q.generation, [Ref(q.toolCallId, x.nonce)])
    && exists b :: RowsForCall(s, q.jobId, q.toolCallId) == {b} && b.execution.Unclaimed?
                   && b.approvalId in s'.requests && Terminal(s'.requests[b.approvalId].state)
                   && RowsForCall(s', q.jobId, q.toolCallId)
                      == {b.(approvalId := x.approvalId, nonce := x.nonce,
                             argsHash := s.requests[q.approvalId].argsHash)}
  }

  lemma ReissueKeepsOneApproval(s: Ledger, q: Reissue, m: Minted)
    requires Inv(s) && BindingsOwned(s) && Unused(s, q, m)
    requires ReissueParked(s, q, m).Done? && ReissueParked(s, q, m).value.created
    ensures OneApproval(s, q, ReissueParked(s, q, m).value)
  {
    hide ReissueParked;
    var b := CreatedFrom(s, q, m);
    OnlyRow(s, b);
    OnlyRow(ReissuedLedger(s, q, m, b), MovedRow(s, q, m, b));
    hide Inv;
    hide Linked;
    hide FromOtherGeneration;
    hide ValidPayload;
    hide RowsForCall;
    assert b.approvalId != m.approvalId;
  }

  /** Asking again finds the same successor exactly when the re-issue expired the approval it
      names, or that approval already claimed to be re-issued as the drawn one; otherwise the
      retry is refused, whatever it draws. */
  lemma ImmediateRetry(s: Ledger, q: Reissue, m: Minted, b: Binding, m': Minted)
    requires Inv(s) && BindingsOwned(s) && Unused(s, q, m) && Captured(s, q, b)
    requires ReissueParked(s, q, m).Done? && ReissueParked(s, q, m).value.created
    requires var s' := ReissueParked(s, q, m).value.ledger; BindingsOwned(s') && Unused(s', q, m')
    ensures q.approvalId in s.requests
    ensures var x := ReissueParked(s, q, m).value; var r := s.requests[q.approvalId];
            if (b.approvalId == q.approvalId && r.state in {Created, PendingUser, Approved})
               || (r.state.Expired? && r.reason == Some(REISSUED_AS + m.approvalId))
            then ReissueParked(x.ledger, q, m') == Done(x.(created := false))
            else ReissueParked(x.ledger, q, m').Raised?
  {
    var c := CreatedFrom(s, q, m);
    assert c == b by { OnlyRow(s, b); assert c in RowsForCall(s, q.jobId, q.toolCallId); }
    var x := ReissueParked(s, q, m).value;
    var s', moved, k := x.ledger, MovedRow(s, q, m, b), TurnKey(q.jobId, m.turnId);
    ReissueOutcome(s', q, m');
    OnlyRow(s', moved);
    OnlyLink(s', k, q.toolCallId, moved.nonce, q.tenant);
    hide Inv;
    hide ReissueParked;
    RetryFinds(s, q, m, b, m');
  }

  lemma RetryFinds(s: Ledger, q: Reissue, m: Minted, b: Binding, m': Minted)
    requires BindingsOwned(s) && Unused(s, q, m) && Reissuable(s, q, m, b)
    requires forall a, k :: !AlreadyIssued(s, q, a, k)
    requires var s' := ReissuedLedger(s, q, m, b);
             && RowsForCall(s', q.jobId, q.toolCallId) == {MovedRow(s, q, m, b)}
             && Linking(s', q.jobId, q.toolCallId, NonceAfter(s, m, b), q.tenant) == {TurnKey(q.jobId, m.turnId)}
    ensures var s' := ReissuedLedger(s, q, m, b); var r := s.requests[q.approvalId];
            var moved, k := MovedRow(s, q, m, b), TurnKey(q.jobId, m.turnId);
            if (b.approvalId == q.approvalId && r.state in {Created, PendingUser, Approved})
               || (r.state.Expired? && r.reason == Some(REISSUED_AS + m.approvalId))
            then AlreadyIssued(s', q, moved, k)
            else (forall a, j :: !AlreadyIssued(s', q, a, j))
                 && (forall c :: Captured(s', q, c) ==> c == moved && !Reissuable(s', q, m', c))
  {
    var s', moved, k := ReissuedLedger(s, q, m, b), MovedRow(s, q, m, b), TurnKey(q.jobId, m.turnId);
    assert moved in RowsForCall(s', q.jobId, q.toolCallId);
    assert k in Linking(s', q.jobId, q.toolCallId, NonceAfter(s, m, b), q.tenant);
    forall c | c in s'.bindings && ForCall(c, q.jobId, q.toolCallId)
      ensures c == moved
    {
      assert c in RowsForCall(s', q.jobId, q.toolCallId);
    }
    assert StillOpen(s', moved);
    assert forall j :: j in s'.turns && j.jobId == moved.jobId && s'.turns[j].tenant == moved.tenant
                       && Ref(moved.toolCallId, moved.nonce) in s'.turns[j].refs ==>
                         j in Linking(s', q.jobId, q.toolCallId, moved.nonce, q.tenant);
    assert !FromOtherGeneration(s', moved, q.generation);
  }
}
