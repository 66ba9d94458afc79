/** Where outbox rows and their states come from: each row was queued for a decision it
    repeats, published after its checks passed, and acknowledged by its own addressee. */
module OutboxProvenance {
  import opened Json
  import opened ApprovalPolicy
  import opened DeliveryOutbox
  import opened OutboxRuns

  /** The i-th call queued this row. */
  predicate InsertedAt(ops: seq<Op>, i: nat, r: Row) {
    && i < |ops| && ops[i].OpInsert?
    && ops[i].delivery == Delivery(r.key, r.address, r.approved, r.decidedAt, r.voteId, r.voteAuditId)
    && ops[i].decided == (if r.approved then Approved else Denied)
    && r.createdAt == ops[i].now
    && r.sequence == Next(Run(ops[..i]))
  }

  /** The i-th call published this row: its checks passed and its inbox was written. */
  predicate PublishedAt(ops: seq<Op>, i: nat, r: Row) {
    && i < |ops|
    && ((ops[i].OpAppend? && ops[i].written) || ops[i].OpReconcile?)
    && ops[i].key == r.key && ops[i].approved == r.approved
    && PreYield(Run(ops[..i]), r.key, r.approved).None?
    && r.publishedAt == Some(ops[i].now)
  }

  /** The i-th call acknowledged this row, naming exactly its addressee and decision. */
  predicate AcknowledgedAt(ops: seq<Op>, i: nat, r: Row) {
    && i < |ops| && ops[i].OpAcknowledge?
    && ops[i].key == r.key && ops[i].address == r.address && ops[i].approved == r.approved
       && ops[i].decidedAt == r.decidedAt
    && r.acknowledgedAt == Some(ops[i].now)
  }

  lemma PrefixRun(ops: seq<Op>, n: nat, i: nat)
    requires i < n <= |ops|
    ensures ops[..n][..i] == ops[..i] && ops[..n][i] == ops[i]
  {
  }

  /** Only an insert adds a row, under the next sequence. */
  lemma OnlyInsertAdds(o: Outbox, op: Op, k: Key)
    requires Inv(o) && k !in o.rows && k in After(o, Perform(o, op)).rows
    ensures op.OpInsert? && k == op.delivery.key
    ensures After(o, Perform(o, op)).rows[k] == NewRow(o, op.delivery, op.now)
    ensures op.decided == (if op.delivery.approved then Approved else Denied)
  {
    KeysMatch(o);
    hide Inv;
  }

  lemma KeysMatch(o: Outbox)
    requires Inv(o)
    ensures forall k :: k in o.rows ==> o.rows[k].key == k
  {
    forall k | k in o.rows
      ensures o.rows[k].key == k
    {
      assert RowOk(o, k);
    }
  }

  /** Only a passing append or reconcile publishes, and only an exact acknowledgment acknowledges. */
  lemma OnlyTheseMove(o: Outbox, op: Op, k: Key)
    requires Inv(o) && k in o.rows
    ensures var r, r' := o.rows[k], After(o, Perform(o, op)).rows[k];
            k in After(o, Perform(o, op)).rows
            && (!Out(r.state) && Out(r'.state) ==>
                  && ((op.OpAppend? && op.written) || op.OpReconcile?)
                  && op.key == k && op.approved == r.approved
                  && PreYield(o, k, r.approved).None? && r'.publishedAt == Some(op.now))
            && (!r.state.Acknowledged? && r'.state.Acknowledged? ==>
                  && op.OpAcknowledge? && op.key == k && op.address == r.address && op.approved == r.approved
                  && op.decidedAt == r.decidedAt && r'.acknowledgedAt == Some(op.now))
  {
    assert RowOk(o, k);
    if op.OpInsert? {
      assert SameApproval(o, k.approvalId);
    } else if !op.OpFence? && !op.OpWindow? {
      assert RowOk(o, op.key);
    }
  }

  /** Every row was queued by the run for the decision it carries. */
  lemma {:induction false} RowWasInserted(ops: seq<Op>, k: Key)
    requires k in Run(ops).rows
    ensures exists i :: InsertedAt(ops, i, Run(ops).rows[k])
    decreases |ops|
  {
    if ops != [] {
      var n := |ops| - 1;
      assert ops[..|ops|] == ops;
      RunStep(ops, n);
      RunKeeps(ops[..n]);
      hide Perform;
      hide Inv;
      hide Run;
      var o := Run(ops[..n]);
      if k in o.rows {
        RowWasInserted(ops[..n], k);
        var i :| InsertedAt(ops[..n], i, o.rows[k]);
        PrefixRun(ops, n, i);
        RunEvolves(ops, n, |ops|);
        assert RowEvolves(o.rows[k], Run(ops).rows[k]);
        assert InsertedAt(ops, i, Run(ops).rows[k]);
      } else {
        OnlyInsertAdds(o, ops[n], k);
        assert InsertedAt(ops, n, Run(ops).rows[k]);
      }
    }
  }

  /** Every published row was published by a call that passed all checks. */
  lemma {:induction false} OutWasPublished(ops: seq<Op>, k: Key)
    requires k in Run(ops).rows && Out(Run(ops).rows[k].state)
    ensures exists i :: PublishedAt(ops, i, Run(ops).rows[k])
    decreases |ops|
  {
    if ops != [] {
      var n := |ops| - 1;
      assert ops[..|ops|] == ops;
      RunStep(ops, n);
      RunKeeps(ops[..n]);
      var o := Run(ops[..n]);
      hide Perform;
      hide Run;
      if k !in o.rows {
        OnlyInsertAdds(o, ops[n], k);
      } else {
        RunEvolves(ops, n, |ops|);
        assert RowOk(o, k);
        hide Inv;
        assert RowEvolves(o.rows[k], Run(ops).rows[k]);
        if Out(o.rows[k].state) {
          OutWasPublished(ops[..n], k);
          var i :| PublishedAt(ops[..n], i, o.rows[k]);
          PrefixRun(ops, n, i);
          assert PublishedAt(ops, i, Run(ops).rows[k]);
        } else {
          OnlyTheseMove(o, ops[n], k);
          assert PublishedAt(ops, n, Run(ops).rows[k]);
        }
      }
    }
  }

  /** Every acknowledged row was acknowledged by a call naming exactly its addressee. */
  lemma {:induction false} AcknowledgedByAddressee(ops: seq<Op>, k: Key)
    requires k in Run(ops).rows && Run(ops).rows[k].state.Acknowledged?
    ensures exists i :: AcknowledgedAt(ops, i, Run(ops).rows[k])
    decreases |ops|
  {
    if ops != [] {
      var n := |ops| - 1;
      assert ops[..|ops|] == ops;
      RunStep(ops, n);
      RunKeeps(ops[..n]);
      var o := Run(ops[..n]);
      hide Perform;
      hide Run;
      if k !in o.rows {
        OnlyInsertAdds(o, ops[n], k);
      } else {
        RunEvolves(ops, n, |ops|);
        assert RowOk(o, k);
        hide Inv;
        assert RowEvolves(o.rows[k], Run(ops).rows[k]);
        if o.rows[k].state.Acknowledged? {
          AcknowledgedByAddressee(ops[..n], k);
          var i :| AcknowledgedAt(ops[..n], i, o.rows[k]);
          PrefixRun(ops, n, i);
          assert AcknowledgedAt(ops, i, Run(ops).rows[k]);
        } else {
          OnlyTheseMove(o, ops[n], k);
          assert AcknowledgedAt(ops, n, Run(ops).rows[k]);
        }
      }
    }
  }
}
