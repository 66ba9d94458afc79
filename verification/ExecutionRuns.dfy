/** Claiming and completing a captured call: exactly when each succeeds, whose result a
    completed row holds, and what every later claim answers. */
module ExecutionRuns {
  import opened Json
  import opened ApprovalPolicy
  import opened ApprovalLedger
  import opened LedgerRuns
  import opened LedgerGuarantees
  import opened OriginRuns

  /** A stored row verifies for every copy of its capture, and for no other. */
  lemma CopyVerifies(s: Ledger, b: Binding)
    requires Inv(s)
    ensures forall row :: row in s.bindings && SameCapture(row, b) ==> VerifyAttempt(s, b) == Done(row)
    ensures VerifyAttempt(s, b).Done? ==> VerifyAttempt(s, b).value in s.bindings
    ensures VerifyAttempt(s, b).Done? ==> SameCapture(VerifyAttempt(s, b).value, b)
  {
    forall row | row in s.bindings && SameCapture(row, b)
      ensures VerifyAttempt(s, b) == Done(row)
    {
      StoredBindingVerifies(s, row);
    }
  }

  lemma CopyIs(row: Binding, b: Binding)
    ensures SameCapture(row, b) <==> row == b.(execution := row.execution)
  {
  }

  /** In any reachable ledger, for any copy of a capture: the attempt is reserved if and only if
      the row is stored unclaimed and its request, at the claimed version, was approved as its
      constraint demands; a result is answered if and only if it is the stored row's own. */
  lemma ClaimIff(ops: seq<Op>, b: Binding, version: int, token: string)
    ensures var s := Run(ops); var o := Claim(s, b, version, token);
            var free, taken := b.(execution := Unclaimed), b.(execution := Claimed(token, version));
            && (o.Done? && o.value.Reserved? <==>
                  && token != "" && free in s.bindings && b.approvalId in s.requests
                  && var r := s.requests[b.approvalId];
                     && r.version == version
                     && ((r.constraint.Standard? && r.state in {Approved, AutoApproved})
                         || (r.constraint.FreshHumanOwner? && r.state.Approved? && r.deciderId == r.requiredOwner)))
            && (o.Done? && o.value.Reserved? ==>
                  o.value.ledger == s.(bindings := s.bindings - {free} + {taken}))
            && forall result :: (o == Done(AlreadyCompleted(result)) <==>
                  token != "" && exists t, v :: b.(execution := Completed(t, v, result)) in s.bindings)
  {
    hide Run;
    var s := Run(ops);
    CopyVerifies(s, b);
    hide Inv;
    hide VerifyAttempt;
    var o := Claim(s, b, version, token);
    var free := b.(execution := Unclaimed);
    assert SameCapture(free, b);
    if VerifyAttempt(s, b).Done? {
      CopyIs(VerifyAttempt(s, b).value, b);
    }
    forall result
      ensures o == Done(AlreadyCompleted(result)) <==>
                token != "" && exists t, v :: b.(execution := Completed(t, v, result)) in s.bindings
    {
      if t, v :| b.(execution := Completed(t, v, result)) in s.bindings {
        assert SameCapture(b.(execution := Completed(t, v, result)), b);
      }
      if o == Done(AlreadyCompleted(result)) {
        var e := VerifyAttempt(s, b).value.execution;
        assert b.(execution := Completed(e.token, e.decisionVersion, result)) in s.bindings;
      }
    }
  }

  /** In any reachable ledger a completion succeeds if and only if the row is claimed under its
      token and version, or already completed so with the same result; then the row holds that
      result and nothing else changed. */
  lemma CompleteIff(ops: seq<Op>, b: Binding, version: int, token: string, result: string)
    ensures var s := Run(ops); var o := Complete(s, b, version, token, result);
            var taken := b.(execution := Claimed(token, version));
            var settled := b.(execution := Completed(token, version, result));
            && (o.Done? <==> token != "" && (taken in s.bindings || settled in s.bindings))
            && (o.Done? ==> o.value == s.(bindings := s.bindings - {taken} + {settled}))
  {
    hide Run;
    var s := Run(ops);
    CopyVerifies(s, b);
    var taken := b.(execution := Claimed(token, version));
    var settled := b.(execution := Completed(token, version, result));
    assert SameCapture(taken, b) && SameCapture(settled, b);
    if VerifyAttempt(s, b).Done? {
      CopyIs(VerifyAttempt(s, b).value, b);
    }
    if settled in s.bindings {
      assert VerifyAttempt(s, b).value == settled;
      assert taken !in s.bindings;
      assert s.bindings - {taken} + {settled} == s.bindings;
    }
  }

  /** The i-th call completed this row's claimed attempt with this row's result. */
  ghost predicate ReturnedAt(ops: seq<Op>, i: nat, b: Binding) {
    && i < |ops| && ops[i].OpComplete? && b.execution.Completed?
    && SameCapture(ops[i].binding, b)
    && ops[i].token == b.execution.token && ops[i].version == b.execution.decisionVersion
    && ops[i].result == b.execution.result
    && b.(execution := Claimed(ops[i].token, ops[i].version)) in Run(ops[..i]).bindings
  }

  /** Whose result a completed row holds: some call of the run completed this very capture,
      claimed under the row's token and version, with the row's result. */
  lemma {:induction false} ResultsWereReturned(ops: seq<Op>, b: Binding)
    requires b in Run(ops).bindings && b.execution.Completed?
    ensures exists i: nat :: ReturnedAt(ops, i, b)
    decreases |ops|
  {
    if ops != [] {
      var n := |ops| - 1;
      assert ops[..|ops|] == ops;
      RunStep(ops, n);
      hide Run;
      hide Apply;
      var s := Run(ops[..n]);
      if b in s.bindings {
        ResultsWereReturned(ops[..n], b);
        var i: nat :| ReturnedAt(ops[..n], i, b);
        assert ops[..n][..i] == ops[..i] && ops[..n][i] == ops[i];
        assert ReturnedAt(ops, i, b);
      } else {
        StepAddsRow(s, ops[n], b);
        assert ReturnedAt(ops, n, b);
      }
    }
  }

  /** The row a completion left, at any later point of the run. */
  lemma SettledStays(ops: seq<Op>, i: nat, j: nat)
    requires i < j <= |ops| && ops[i].OpComplete?
    requires Complete(Run(ops[..i]), ops[i].binding, ops[i].version, ops[i].token, ops[i].result).Done?
    ensures ops[i].binding.(execution := Completed(ops[i].token, ops[i].version, ops[i].result))
            in Run(ops[..j]).bindings
  {
    hide Run;
    hide Complete;
    hide Inv;
    SettledNext(ops, i);
    TakenCallsAreKept(ops, i + 1, j, ops[i].binding.(execution := Completed(ops[i].token, ops[i].version,
                                                                            ops[i].result)));
  }

  lemma SettledNext(ops: seq<Op>, i: nat)
    requires i < |ops| && ops[i].OpComplete?
    requires Complete(Run(ops[..i]), ops[i].binding, ops[i].version, ops[i].token, ops[i].result).Done?
    ensures ops[i].binding.(execution := Completed(ops[i].token, ops[i].version, ops[i].result))
            in Run(ops[..i + 1]).bindings
  {
    CompleteIff(ops[..i], ops[i].binding, ops[i].version, ops[i].token, ops[i].result);
    RunStep(ops, i);
    hide Run;
    hide Inv;
    CompletionApplies(Run(ops[..i]), ops[i]);
    hide Apply;
    hide Complete;
  }

  lemma CompletionApplies(s: Ledger, op: Op)
    requires BindingsOwned(s) && op.OpComplete?
    ensures Apply(s, op) == After(s, Complete(s, op.binding, op.version, op.token, op.result))
  {
    hide Complete;
  }

  lemma SettledAnswers(ops: seq<Op>, b: Binding, settled: Binding, version: int, token: string, other: string)
    requires settled in Run(ops).bindings && settled.execution.Completed? && SameCapture(b, settled) && token != ""
    ensures Claim(Run(ops), b, version, token) == Done(AlreadyCompleted(settled.execution.result))
    ensures other != settled.execution.result ==>
              Complete(Run(ops), b, settled.execution.decisionVersion, settled.execution.token, other).Raised?
  {
    hide Run;
    CopyVerifies(Run(ops), b);
    hide Inv;
    hide VerifyAttempt;
  }

  /** Once a completion succeeded, every later claim of the call, under any token and version,
      answers exactly its result, and every later completion with another result is refused. */
  lemma ResultIsAnswered(ops: seq<Op>, i: nat, j: nat, version: int, token: string, other: string)
    requires i < j <= |ops| && ops[i].OpComplete? && token != ""
    requires Complete(Run(ops[..i]), ops[i].binding, ops[i].version, ops[i].token, ops[i].result).Done?
    ensures Claim(Run(ops[..j]), ops[i].binding, version, token) == Done(AlreadyCompleted(ops[i].result))
    ensures other != ops[i].result ==>
              Complete(Run(ops[..j]), ops[i].binding, ops[i].version, ops[i].token, other).Raised?
  {
    hide Run;
    hide Claim;
    hide Complete;
    hide Inv;
    SettledStays(ops, i, j);
    SettledAnswers(ops[..j], ops[i].binding,
                   ops[i].binding.(execution := Completed(ops[i].token, ops[i].version, ops[i].result)),
                   version, token, other);
  }
}
