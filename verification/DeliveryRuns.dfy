/** The life of one delivery: what each transaction does to its row, told without the
    transactions' own checks, and exactly which deliveries can still reach their run. */
module DeliveryRuns {
  import opened Json
  import opened ApprovalPolicy
  import opened DeliveryOutbox
  import opened OutboxRuns

  /** The reading is positive and the clock did not go back. */
  predicate Ticks(o: Outbox, now: int) {
    now > 0 && (o.clock.None? || o.clock.value <= now)
  }

  function RowOf(o: Outbox, k: Key): Option<Row> {
    if k in o.rows then Some(o.rows[k]) else None
  }

  /** An approved delivery of a fenced approval; a denial is never barred. */
  predicate Barred(o: Outbox, r: Row) {
    r.approved && r.key.approvalId in o.fences
  }

  /** The outcome may be queued: it is the request's decision, no delivery of the approval
      exists, and sequence, decision time and vote reference are in order. */
  predicate Queueable(o: Outbox, d: Delivery, decided: ApprovalState) {
    && decided == (if d.approved then Approved else Denied)
    && (forall k :: k in o.rows ==> k.approvalId != d.key.approvalId)
    && (o.nextSequence.Some? ==> o.nextSequence.value < SQLITE_MAX)
    && d.decidedAt > 0 && (d.voteId.Some? <==> d.voteAuditId.Some?)
  }

  /** The row of one key after a transaction. */
  function RowAfter(o: Outbox, k: Key, op: Op): Option<Row> {
    if op.OpInsert? then
      if op.delivery.key == k && Ticks(o, op.now) && Queueable(o, op.delivery, op.decided)
      then var d := op.delivery;
           Some(Row(if o.nextSequence.Some? then o.nextSequence.value else 1, k, d.address, d.approved, d.decidedAt,
                    d.voteId, d.voteAuditId, op.now, Pending, 0, None, None, op.now, None, None, None, None, false))
      else RowOf(o, k)
    else if op.OpFence? || op.OpWindow? || op.key != k || k !in o.rows || !Ticks(o, op.now) then RowOf(o, k)
    else Some(RowThen(o, o.rows[k], op))
  }

  /** What a transaction aimed at a stored row, under a clock that goes on, makes of it. */
  function RowThen(o: Outbox, r: Row, op: Op): Row
    requires !op.OpInsert? && !op.OpFence? && !op.OpWindow?
  {
    match op
    case OpAudit(_, now) =>
      if r.state.Pending? && !r.auditReady
      then r.(auditReady := true, auditReadyAt := Some(now), updatedAt := now) else r
    case OpAppend(_, approved, written, now) =>
      if r.state.Pending? && r.auditReady && r.approved == approved && written && !Barred(o, r) then Sent(r, now) else r
    case OpReconcile(_, approved, now) =>
      if r.state.Pending? && r.auditReady && r.approved == approved && !Barred(o, r) then Sent(r, now) else r
    case OpAcknowledge(_, address, approved, decidedAt, now) =>
      if r.state.Published? && (r.address, r.approved, r.decidedAt) == (address, approved, decidedAt)
      then r.(state := Acknowledged, lastError := None, updatedAt := now, acknowledgedAt := Some(now)) else r
    case OpFail(_, error, now) =>
      if r.state in {Pending, Published}
      then r.(attempts := r.attempts + 1, lastError := Some(error), lastAttempt := Some(now), updatedAt := now) else r
    case OpQuarantine(_, error, now) =>
      if r.state.Pending?
      then r.(state := Quarantined, attempts := r.attempts + 1, lastError := Some(error), lastAttempt := Some(now),
              updatedAt := now, quarantinedAt := Some(now))
      else r
    case _ => r
  }

  function Sent(r: Row, now: int): Row {
    r.(state := Published, attempts := r.attempts + 1, lastError := None, updatedAt := now, publishedAt := Some(now))
  }

  lemma InsertRow(o: Outbox, op: Op, k: Key)
    requires Inv(o) && op.OpInsert?
    ensures RowOf(After(o, Perform(o, op)), k) == RowAfter(o, k, op)
  {
    hide Inv;
    NextPositive(o);
    assert SameApproval(o, op.delivery.key.approvalId) <==>
             !(forall l :: l in o.rows ==> l.approvalId != op.delivery.key.approvalId);
    hide SameApproval;
  }

  lemma PublishRow(o: Outbox, k: Key, now: int)
    requires Inv(o) && k in o.rows && o.rows[k].state.Pending? && o.rows[k].auditReady
    ensures Publish(o, k, now) == if Ticks(o, now)
                                  then Committed(o.(clock := Some(now), rows := o.rows[k := Sent(o.rows[k], now)]))
                                  else if ClockRefuses(o, now) then Refused(ClockRollback) else Refused(CheckFailed)
  {
    assert RowOk(o, k);
  }

  lemma SendingRow(o: Outbox, op: Op, k: Key)
    requires Inv(o) && (op.OpAppend? || op.OpReconcile?)
    ensures RowOf(After(o, Perform(o, op)), k) == RowAfter(o, k, op)
  {
    assert RowOk(o, op.key);
    if op.key in o.rows && o.rows[op.key].state.Pending? && o.rows[op.key].auditReady {
      PublishRow(o, op.key, op.now);
    }
    hide Inv;
    hide Publish;
    hide RowOk;
  }

  lemma SettlingRow(o: Outbox, op: Op, k: Key)
    requires Inv(o) && (op.OpAudit? || op.OpAcknowledge?)
    ensures RowOf(After(o, Perform(o, op)), k) == RowAfter(o, k, op)
  {
    assert RowOk(o, op.key);
    hide Inv;
  }

  lemma FailingRow(o: Outbox, op: Op, k: Key)
    requires Inv(o) && (op.OpFail? || op.OpQuarantine? || op.OpFence? || op.OpWindow?)
    ensures RowOf(After(o, Perform(o, op)), k) == RowAfter(o, k, op)
  {
    if op.OpFail? || op.OpQuarantine? {
      assert RowOk(o, op.key);
    }
    hide Inv;
  }

  /** In any reachable outbox every transaction does to every row exactly what its life says:
      no row is lost, none is touched by a call that does not name it, and a call that may move
      it does. */
  lemma EachRowLives(ops: seq<Op>, op: Op, k: Key)
    ensures RowOf(Run(ops + [op]), k) == RowAfter(Run(ops), k, op)
  {
    assert (ops + [op])[..|ops|] == ops;
    RunKeeps(ops);
    hide Run;
    hide RowAfter;
    hide RowOf;
    hide Inv;
    hide Perform;
    assert Run(ops + [op]) == After(Run(ops), Perform(Run(ops), op)) by {
      RunStep(ops + [op], |ops|);
      assert (ops + [op])[..|ops| + 1] == ops + [op];
    }
    if op.OpInsert? {
      InsertRow(Run(ops), op, k);
    } else if op.OpAppend? || op.OpReconcile? {
      SendingRow(Run(ops), op, k);
    } else if op.OpAudit? || op.OpAcknowledge? {
      SettlingRow(Run(ops), op, k);
    } else {
      FailingRow(Run(ops), op, k);
    }
  }

  // ------------------------------------------------------------- going out

  lemma {:induction false} FencedIff(ops: seq<Op>, id: string)
    ensures id in Run(ops).fences <==> OpFence(id) in ops
  {
    if ops != [] {
      var n := |ops| - 1;
      FencedIff(ops[..n], id);
      hide Perform;
      assert ops == ops[..n] + [ops[n]];
      FencesAfter(Run(ops[..n]), ops[n]);
    }
  }

  lemma FencesAfter(o: Outbox, op: Op)
    ensures After(o, Perform(o, op)).fences == o.fences + if op.OpFence? then {op.id} else {}
  {
  }

  /** Exactly when the local append publishes: the inbox was written and the row stands audited
      and pending with this decision, under a clock that goes on; a fence stops it only if the
      decision is an approval. */
  lemma AppendIff(ops: seq<Op>, k: Key, approved: bool, written: bool, now: int)
    ensures var o := Run(ops);
            Append(o, k, approved, written, now).Committed? <==>
              && written && k in o.rows && o.rows[k].approved == approved && o.rows[k].auditReady
              && o.rows[k].state.Pending? && !(approved && OpFence(k.approvalId) in ops) && Ticks(o, now)
  {
    RunKeeps(ops);
    FencedIff(ops, k.approvalId);
    hide Run;
    var o := Run(ops);
    if k in o.rows && o.rows[k].state.Pending? && o.rows[k].auditReady {
      PublishRow(o, k, now);
    }
    hide Inv;
    hide Publish;
  }

  /** Exactly when a surviving record is reconciled: the row is out already, and stays as it is,
      or the append would publish it. */
  lemma ReconcileIff(ops: seq<Op>, k: Key, approved: bool, now: int)
    ensures var o := Run(ops);
            && (Reconcile(o, k, approved, now).Committed? <==>
                  && k in o.rows && o.rows[k].approved == approved && o.rows[k].auditReady
                  && (|| o.rows[k].state in {Published, Acknowledged}
                      || (o.rows[k].state.Pending? && !(approved && OpFence(k.approvalId) in ops) && Ticks(o, now))))
            && (Reconcile(o, k, approved, now).Committed? && o.rows[k].state in {Published, Acknowledged} ==>
                  Reconcile(o, k, approved, now) == Committed(o))
  {
    RunKeeps(ops);
    FencedIff(ops, k.approvalId);
    hide Run;
    var o := Run(ops);
    if k in o.rows && o.rows[k].state.Pending? && o.rows[k].auditReady {
      PublishRow(o, k, now);
    }
    hide Inv;
    hide Publish;
  }

  /** The receipt, the append and the acknowledgment of the row's own addressee. */
  function Delivering(r: Row, now: int): seq<Op> {
    [OpAudit(r.key, now), OpAppend(r.key, r.approved, true, now),
     OpAcknowledge(r.key, r.address, r.approved, r.decidedAt, now)]
  }

  /** The delivery was given up, or is an approval that was fenced before it went out. */
  predicate Lost(ops: seq<Op>, r: Row) {
    r.state.Quarantined? || (r.state.Pending? && r.approved && OpFence(r.key.approvalId) in ops)
  }

  lemma TickKept(ops: seq<Op>, op: Op, now: int)
    requires Ticks(Run(ops), now) && (op.OpAudit? || op.OpAppend?) && op.now == now
    ensures Ticks(Run(ops + [op]), now) && Run(ops + [op]).fences == Run(ops).fences
  {
    assert (ops + [op])[..|ops|] == ops;
    var o := Run(ops);
    assert Run(ops + [op]) == After(o, Perform(o, op));
    hide Run;
  }

  /** One step of such a delivery leaves the row as it was or one step further. */
  lemma Further(ops: seq<Op>, i: nat, op: Op, k: Key, now: int)
    requires k in Run(ops).rows && Ticks(Run(ops), now) && Run(ops).rows[k].key == k
    requires !(Run(ops).rows[k].approved && k.approvalId in Run(ops).fences)
             || Run(ops).rows[k].state in {Published, Acknowledged}
    requires i < 3 && op == Delivering(Run(ops).rows[k], now)[i]
    ensures k in Run(ops + [op]).rows
    ensures var r, r' := Run(ops).rows[k], Run(ops + [op]).rows[k];
            && (r'.key, r'.address, r'.approved, r'.decidedAt) == (r.key, r.address, r.approved, r.decidedAt)
            && (op.OpAudit? ==> r'.state == r.state && (r.state.Pending? ==> r'.auditReady))
            && (op.OpAppend? && r.auditReady ==> r'.state == if r.state.Pending? then Published else r.state)
            && (op.OpAcknowledge? ==> r'.state == if r.state.Published? then Acknowledged else r.state)
            && (r.auditReady ==> r'.auditReady)
  {
    EachRowLives(ops, op, k);
    hide Run;
  }

  /** From every reachable outbox, a delivery that is not lost reaches its run through its own
      receipt, append and acknowledgment, whatever happened before. */
  lemma CanBeDelivered(ops: seq<Op>, k: Key, now: int)
    requires k in Run(ops).rows && !Lost(ops, Run(ops).rows[k]) && Ticks(Run(ops), now)
    ensures var o := Run(ops + Delivering(Run(ops).rows[k], now)); k in o.rows && o.rows[k].state.Acknowledged?
  {
    var r := Run(ops).rows[k];
    RunKeeps(ops);
    assert r.key == k && (r.state in {Published, Acknowledged} ==> r.auditReady) by { assert RowOk(Run(ops), k); }
    FencedIff(ops, k.approvalId);
    var plan := Delivering(r, now);
    var a := ops + [plan[0]];
    hide Run;
    hide Inv;
    hide Ticks;
    Further(ops, 0, plan[0], k, now);
    TickKept(ops, plan[0], now);
    SendThenReceive(a, k, now);
    assert Delivering(Run(a).rows[k], now) == plan;
    assert ops + plan == a + plan[1..];
  }

  /** An audited row that is not barred goes out and is acknowledged. */
  lemma SendThenReceive(ops: seq<Op>, k: Key, now: int)
    requires k in Run(ops).rows && Ticks(Run(ops), now) && Run(ops).rows[k].key == k && Run(ops).rows[k].auditReady
    requires !Run(ops).rows[k].state.Quarantined?
    requires !(Run(ops).rows[k].approved && k.approvalId in Run(ops).fences)
             || Run(ops).rows[k].state in {Published, Acknowledged}
    ensures var o := Run(ops + Delivering(Run(ops).rows[k], now)[1..]); k in o.rows && o.rows[k].state.Acknowledged?
  {
    hide Run;
    hide Ticks;
    var plan := Delivering(Run(ops).rows[k], now);
    var b := ops + [plan[1]];
    Further(ops, 1, plan[1], k, now);
    TickKept(ops, plan[1], now);
    Further(b, 2, plan[2], k, now);
    assert ops + plan[1..] == b + [plan[2]];
  }

  /** A lost delivery reaches its run in no continuation. */
  lemma LostStaysLost(ops: seq<Op>, more: seq<Op>, k: Key)
    requires k in Run(ops).rows && Lost(ops, Run(ops).rows[k])
    ensures k in Run(ops + more).rows && !Out(Run(ops + more).rows[k].state)
  {
    var all := ops + more;
    RunKeeps(ops);
    assert Run(ops).rows[k].key == k by { assert RowOk(Run(ops), k); }
    FencedIff(ops, k.approvalId);
    assert all[..|ops|] == ops && all[..|all|] == all;
    hide Run;
    hide Inv;
    StatesMoveForward(all, |ops|, |all|, k);
    if Out(Run(all).rows[k].state) && Run(ops).rows[k].state.Pending? {
      FencedIsNeverPublished(all, |ops|, |all|, k);
    }
  }

  /** Which deliveries can still reach their run: a queued one can be acknowledged in some
      continuation if and only if it was neither given up nor is an approval fenced before it
      went out. So a fence never stops a denial. */
  lemma DeliverableIff(ops: seq<Op>, k: Key)
    requires k in Run(ops).rows
    ensures (exists more :: k in Run(ops + more).rows && Run(ops + more).rows[k].state.Acknowledged?) <==>
              !Lost(ops, Run(ops).rows[k])
  {
    var o := Run(ops);
    if Lost(ops, o.rows[k]) {
      forall more
        ensures k in Run(ops + more).rows && !Out(Run(ops + more).rows[k].state)
      {
        LostStaysLost(ops, more, k);
      }
    } else {
      RunKeeps(ops);
      var now := if o.clock.Some? then o.clock.value else 1;
      CanBeDelivered(ops, k, now);
      var more := Delivering(o.rows[k], now);
      assert k in Run(ops + more).rows && Run(ops + more).rows[k].state.Acknowledged?;
    }
  }

  // ---------------------------------------------------------------- recovery

  /** Draining up to the high-water mark visits every pending delivery, and draining in two
      windows visits the same ones, none twice. */
  lemma WindowsCover(o: Outbox, highWater: int, after: int, middle: int, through: int)
    requires Inv(o) && IsHighWater(o, highWater) && after <= middle <= through
    ensures forall k :: k in Window(o, 0, highWater) <==> k in o.rows && o.rows[k].state.Pending?
    ensures Window(o, after, through) == Window(o, after, middle) + Window(o, middle, through)
    ensures Window(o, after, middle) !! Window(o, middle, through)
  {
    forall k | k in o.rows
      ensures o.rows[k].sequence > 0
    {
      assert RowOk(o, k);
    }
  }
}
