/** Re-issuing a call whose approval was refused: exactly when it succeeds, and a run in
    which it succeeds once and its immediate retry is refused. */
module DeniedReissue {
  import opened Json
  import opened ApprovalPolicy
  import opened ApprovalLedger
  import opened LedgerRuns
  import opened LedgerGuarantees
  import opened Reissues

  /** An unexecuted captured call of a refused approval, named exactly by the re-issue. */
  ghost predicate RefusedCall(s: Ledger, q: Reissue, m: Minted, b: Binding) {
    && Inv(s) && BindingsOwned(s) && Unused(s, q, m)
    && q.approvalId in s.requests && s.requests[q.approvalId].state in {Denied, AutoDenied}
    && TurnKey(q.jobId, q.turnId) in s.turns && s.turns[TurnKey(q.jobId, q.turnId)].tenant == q.tenant
    && ReadBinding(s, q.jobId, q.toolCallId, q.nonce, q.tenant) == Done(b)
    && b.approvalId == q.approvalId && b.execution.Unclaimed?
    && ValidPayload(SuccessorPayload(q, m, b))
  }

  /** Re-issuing a refused call succeeds if and only if no root turn links its nonce; a call
      published from its turn is linked, so there the first re-issue is already refused, by
      the link. */
  lemma RefusedReissueIff(s: Ledger, q: Reissue, m: Minted, b: Binding)
    requires RefusedCall(s, q, m, b)
    ensures ReissueParked(s, q, m).Done? <==> !Linked(s, q.jobId, q.toolCallId, q.nonce)
    ensures ReissueParked(s, q, m).Raised? ==> ReissueParked(s, q, m) == Raised(TurnLinkMismatch)
    ensures ReissueParked(s, q, m).Done? ==> ReissueParked(s, q, m).value.created
  {
    SuccessorGood(s, q, m);
    OwnedByInv(WithSuccessor(s, q, m));
    ReadIff(s, q, b);
    InvRow(s, b);
    SuccessorPublishes(s, q, m, b);
    hide Inv;
    hide ReadBinding;
    hide PublishSuccessor;
    hide Linked;
    hide ValidPayload;
  }

  // ------------------------------------------------------ a run that shows it

  const DENIED := Request(
    "call", "user", "run", "run", "job", "cli", "tool", "hash", Denied, 1, None, Some(Denied), None, None,
    Standard, None, Legacy, None, Human, None, "policy", "review")

  const CAPTURED := Binding("old", "job", "call", "nonce", "user", "tool", Operands("input", "context", None, None),
                            "hash", Unclaimed)

  const DENIED_LEDGER := Ledger(
    map["old" := DENIED], {CAPTURED}, map[TurnKey("job", "turn") := RootTurn("user", "authority", "g1", [])], map[],
    map[], {})

  const RETRIED := Reissue("old", "job", "call", "nonce", "turn", "user", "g2", "policy")

  const DRAWN := Minted("new", "next", "fresh-nonce")

  /** Create the request, capture its call, admit its turn, and deny it. */
  const DENYING: seq<Op> := [
    OpCreate("old", DENIED.(state := Created, version := 0, decision := None)),
    OpRecord(Payload("old", "job", "call", "nonce", "user", "tool", CAPTURED.operands)),
    OpTurn(TurnKey("job", "turn"), "user", "authority", "g1"),
    OpTransition("old", Denied, None, None, None, None)]

  lemma DeniedIsReached()
    ensures Run(DENYING) == DENIED_LEDGER
  {
    hide Inv;
    hide Step;
    var created := DENIED.(state := Created, version := 0, decision := None);
    var a := EMPTY_LEDGER.(requests := map["old" := created]);
    var b := a.(bindings := {CAPTURED});
    var c := b.(turns := map[TurnKey("job", "turn") := RootTurn("user", "authority", "g1", [])]);
    FourSteps();
    assert DENYING[..0] == [] && DENYING[..4] == DENYING;
    assert Run([]) == EMPTY_LEDGER;
    CreatedStep();
    RecordedStep(a);
    TurnStep(b);
    DeniedStep(c);
  }

  lemma FourSteps()
    ensures forall i :: 0 <= i < 4 ==> Run(DENYING[..i + 1]) == Apply(Run(DENYING[..i]), DENYING[i])
  {
    hide Run;
    hide Apply;
    RunStep(DENYING, 0);
    RunStep(DENYING, 1);
    RunStep(DENYING, 2);
    RunStep(DENYING, 3);
  }

  lemma CreatedStep()
    ensures Apply(EMPTY_LEDGER, DENYING[0]) ==
            EMPTY_LEDGER.(requests := map["old" := DENIED.(state := Created, version := 0, decision := None)])
  {
  }

  lemma RecordedStep(a: Ledger)
    requires a == EMPTY_LEDGER.(requests := map["old" := DENIED.(state := Created, version := 0, decision := None)])
    ensures Apply(a, DENYING[1]) == a.(bindings := {CAPTURED})
  {
    assert Colliding(a, "old", "job", "call") == {};
    assert NewBinding(DENYING[1].payload, "nonce", "hash") == CAPTURED;
    assert {} + {CAPTURED} == {CAPTURED};
  }

  lemma TurnStep(b: Ledger)
    requires b.turns == map[] && BindingsOwned(b)
    ensures Apply(b, DENYING[2]) == b.(turns := map[TurnKey("job", "turn") := RootTurn("user", "authority", "g1", [])])
  {
  }

  lemma DeniedStep(c: Ledger)
    requires BindingsOwned(c) && c.requests == map["old" := DENIED.(state := Created, version := 0, decision := None)]
    ensures Apply(c, DENYING[3]) == c.(requests := map["old" := DENIED])
  {
  }

  lemma DeniedIsRefusedCall()
    ensures RefusedCall(DENIED_LEDGER, RETRIED, DRAWN, CAPTURED)
    ensures !Linked(DENIED_LEDGER, "job", "call", "nonce")
    ensures forall b :: b in RowsForCall(DENIED_LEDGER, "job", "call") ==> b.approvalId == "old"
  {
    DeniedIsReached();
    var s := Run(DENYING);
    hide Run;
    assert "old" != "new" && "turn" != "next";
    StoredBindingVerifies(s, CAPTURED);
  }

  /** From an empty store, create, capture, admit and deny a call: its re-issue succeeds once,
      and the immediate retry is refused whatever identifiers it draws. */
  lemma RetryCanBeRefused(m: Minted)
    ensures var s := Run(DENYING);
            && Unused(s, RETRIED, DRAWN)
            && ReissueParked(s, RETRIED, DRAWN).Done? && ReissueParked(s, RETRIED, DRAWN).value.created
            && var s' := ReissueParked(s, RETRIED, DRAWN).value.ledger;
               BindingsOwned(s') && Unused(s', RETRIED, m) ==> ReissueParked(s', RETRIED, m).Raised?
  {
    DeniedIsReached();
    DeniedIsRefusedCall();
    hide Run;
    hide Inv;
    hide ReadBinding;
    hide ReissueParked;
    RefusedReissueIff(DENIED_LEDGER, RETRIED, DRAWN, CAPTURED);
    var s' := ReissueParked(DENIED_LEDGER, RETRIED, DRAWN).value.ledger;
    if BindingsOwned(s') && Unused(s', RETRIED, m) {
      ReadIff(DENIED_LEDGER, RETRIED, CAPTURED);
      ImmediateRetry(DENIED_LEDGER, RETRIED, DRAWN, CAPTURED, m);
    }
  }
}
