/** The delivery outbox as an object, one method per transaction. Every method is proved
    against the transaction in `DeliveryOutbox` and keeps the outbox invariant. */
module DeliveryStore {
  import opened Json
  import opened ApprovalPolicy
  import opened DeliveryOutbox
  import Runs = OutboxRuns

  class Store {
    var rows: map<Key, Row>
    var clock: Option<int>
    var nextSequence: Option<int>
    var fences: set<string>

    function State(): Outbox
      reads this
    {
      Outbox(rows, clock, nextSequence, fences)
    }

    ghost predicate Valid()
      reads this
    {
      Runs.Inv(State())
    }

    /** The transaction committed exactly this reply, or was refused and rolled back. */
    ghost predicate Ends(reply: Reply, before: Outbox, fault: Option<Fault>)
      reads this
    {
      match reply
      case Committed(o) => State() == o && fault == None
      case Refused(f) => State() == before && fault == Some(f)
    }

    constructor ()
      ensures Valid() && State() == EMPTY_OUTBOX
    {
      rows, clock, nextSequence, fences := map[], None, None, {};
    }

    /** Refuse a clock that went back, or one the high-water table cannot hold. */
    method TrustedNow(now: int) returns (fault: Option<Fault>)
      modifies `clock
      ensures Ends(Tick(old(State()), now), old(State()), fault)
    {
      if clock.Some? && now < clock.value {
        return Some(ClockRollback);
      }
      if now <= 0 {
        return Some(CheckFailed);
      }
      clock := Some(now);
      return None;
    }

    /** Write a row that meets the table's constraints, or undo the clock as well. */
    method Write(row: Row, before: Option<int>) returns (fault: Option<Fault>)
      modifies `rows, `clock
      ensures match Put(old(State()), row)
              case Committed(o) => State() == o && fault == None
              case Refused(f) => State() == old(State()).(clock := before) && fault == Some(f)
    {
      if !RowCheck(row) {
        clock := before;
        return Some(CheckFailed);
      }
      rows := rows[row.key := row];
      return None;
    }

    method InsertDelivery(d: Delivery, decided: ApprovalState, now: int) returns (fault: Option<Fault>)
      requires Valid()
      modifies this
      ensures Valid() && Ends(Insert(old(State()), d, decided, now), old(State()), fault)
    {
      hide Runs.Inv;
      Runs.StepGood(State(), OpInsert(d, decided, now));
      if decided != (if d.approved then Approved else Denied) {
        return Some(DecisionMismatch);
      }
      var before := State();
      fault := TrustedNow(now);
      if fault.Some? {
        return;
      }
      var sequence := 1;
      if nextSequence.Some? {
        sequence := nextSequence.value;
        if !(1 <= sequence < SQLITE_MAX) {
          clock := before.clock;
          return Some(SequenceInvalid);
        }
      }
      if SameApproval(State(), d.key.approvalId) {
        clock := before.clock;
        return Some(Duplicate);
      }
      nextSequence := Some(sequence + 1);
      fault := Write(Row(sequence, d.key, d.address, d.approved, d.decidedAt, d.voteId, d.voteAuditId, now,
                         Pending, 0, None, None, now, None, None, None, None, false), before.clock);
      if fault.Some? {
        nextSequence := before.nextSequence;
      }
    }

    method MarkDeliveryAudited(k: Key, now: int) returns (fault: Option<Fault>)
      requires Valid()
      modifies this
      ensures Valid() && Ends(MarkAudited(old(State()), k, now), old(State()), fault)
    {
      hide Runs.Inv;
      Runs.StepGood(State(), OpAudit(k, now));
      var before := clock;
      fault := TrustedNow(now);
      if fault.Some? {
        return;
      }
      if k !in rows {
        clock := before;
        return Some(NotFound);
      }
      var r := rows[k];
      if r.auditReady {
        return None;
      }
      if !r.state.Pending? {
        clock := before;
        return Some(CasFailed);
      }
      fault := Write(r.(auditReady := true, auditReadyAt := Some(now), updatedAt := now), before);
    }

    method CheckBeforeAppend(k: Key, approved: bool) returns (fault: Option<Fault>)
      ensures fault == PreYield(State(), k, approved)
    {
      if k !in rows {
        return Some(NotFound);
      }
      var r := rows[k];
      if r.approved != approved {
        return Some(DecisionChanged);
      }
      if !r.auditReady {
        return Some(AuditNotReady);
      }
      if !r.state.Pending? {
        return Some(NotPending);
      }
      if approved && k.approvalId in fences {
        return Some(Fenced);
      }
      return None;
    }

    method PublishRow(k: Key, now: int) returns (fault: Option<Fault>)
      modifies `rows, `clock
      ensures Ends(Publish(old(State()), k, now), old(State()), fault)
    {
      var before := clock;
      fault := TrustedNow(now);
      if fault.Some? {
        return;
      }
      if k !in rows || !rows[k].state.Pending? || !rows[k].auditReady {
        clock := before;
        return Some(CasFailed);
      }
      var r := rows[k];
      fault := Write(r.(state := Published, attempts := r.attempts + 1, lastError := None, updatedAt := now,
                        publishedAt := Some(now)), before);
    }

    /** The local append transaction; `written` says whether the body inside it succeeded. */
    method AppendTransaction(k: Key, approved: bool, written: bool, now: int) returns (fault: Option<Fault>)
      requires Valid()
      modifies this
      ensures Valid() && Ends(Append(old(State()), k, approved, written, now), old(State()), fault)
    {
      hide Runs.Inv;
      hide Publish;
      Runs.StepGood(State(), OpAppend(k, approved, written, now));
      fault := CheckBeforeAppend(k, approved);
      if fault.Some? {
        return;
      }
      if !written {
        return Some(BodyFailed);
      }
      fault := PublishRow(k, now);
    }

    method ReconcileDuplicate(k: Key, approved: bool, now: int) returns (fault: Option<Fault>)
      requires Valid()
      modifies this
      ensures Valid() && Ends(Reconcile(old(State()), k, approved, now), old(State()), fault)
    {
      hide Runs.Inv;
      hide Publish;
      Runs.StepGood(State(), OpReconcile(k, approved, now));
      if k !in rows {
        return Some(NotFound);
      }
      var r := rows[k];
      if r.approved != approved {
        return Some(DecisionChanged);
      }
      if !r.auditReady {
        return Some(AuditNotReady);
      }
      if r.state in {Published, Acknowledged} {
        return None;
      }
      if !r.state.Pending? {
        return Some(CannotReconcile);
      }
      if approved && k.approvalId in fences {
        return Some(Fenced);
      }
      fault := PublishRow(k, now);
    }

    method AcknowledgeDelivery(k: Key, address: Address, approved: bool, decidedAt: int, now: int)
      returns (fault: Option<Fault>)
      requires Valid()
      modifies this
      ensures Valid() && Ends(Acknowledge(old(State()), k, address, approved, decidedAt, now), old(State()), fault)
    {
      hide Runs.Inv;
      Runs.StepGood(State(), OpAcknowledge(k, address, approved, decidedAt, now));
      var before := clock;
      fault := TrustedNow(now);
      if fault.Some? {
        return;
      }
      if k !in rows {
        clock := before;
        return Some(NotFound);
      }
      var r := rows[k];
      if r.address != address || r.approved != approved || r.decidedAt != decidedAt {
        clock := before;
        return Some(AddressMismatch);
      }
      if !r.auditReady {
        clock := before;
        return Some(AuditNotReady);
      }
      if r.state.Acknowledged? {
        return None;
      }
      if !r.state.Published? {
        clock := before;
        return Some(NotPublished);
      }
      fault := Write(r.(state := Acknowledged, lastError := None, updatedAt := now, acknowledgedAt := Some(now)),
                     before);
    }

    method RecordFailure(k: Key, error: string, now: int) returns (fault: Option<Fault>)
      requires Valid()
      modifies this
      ensures Valid() && Ends(Fail(old(State()), k, error, now), old(State()), fault)
    {
      hide Runs.Inv;
      Runs.StepGood(State(), OpFail(k, error, now));
      if k !in rows {
        return Some(NotFound);
      }
      var r := rows[k];
      if r.state in {Acknowledged, Quarantined} {
        return None;
      }
      var before := clock;
      fault := TrustedNow(now);
      if fault.Some? {
        return;
      }
      fault := Write(r.(attempts := r.attempts + 1, lastError := Some(error), updatedAt := now,
                        lastAttempt := Some(now)), before);
    }

    method QuarantineDelivery(k: Key, error: string, now: int) returns (fault: Option<Fault>)
      requires Valid()
      modifies this
      ensures Valid() && Ends(Quarantine(old(State()), k, error, now), old(State()), fault)
    {
      hide Runs.Inv;
      Runs.StepGood(State(), OpQuarantine(k, error, now));
      if k !in rows {
        return Some(NotFound);
      }
      var r := rows[k];
      if r.state.Quarantined? {
        return None;
      }
      if !r.state.Pending? {
        return Some(NotPending);
      }
      var before := clock;
      fault := TrustedNow(now);
      if fault.Some? {
        return;
      }
      fault := Write(r.(state := Quarantined, attempts := r.attempts + 1, lastError := Some(error), updatedAt := now,
                        lastAttempt := Some(now), quarantinedAt := Some(now)), before);
    }

    method FenceDelivery(id: string)
      requires Valid()
      modifies this
      ensures Valid() && Ends(FenceApproval(old(State()), id), old(State()), None)
    {
      Runs.StepGood(State(), OpFence(id));
      fences := fences + {id};
    }

    /** The sequence up to which a recovery drains: no later row is at or below it. */
    method RecoveryWindow(now: int) returns (highWater: int, fault: Option<Fault>)
      requires Valid()
      modifies this
      ensures Valid() && Ends(Tick(old(State()), now), old(State()), fault)
      ensures fault.None? ==> IsHighWater(State(), highWater)
    {
      hide Runs.Inv;
      Runs.StepGood(State(), OpWindow(now));
      highWater := 0;
      fault := TrustedNow(now);
      if fault.None? {
        highWater := HighWater();
      }
    }

    method HighWater() returns (n: int)
      requires Valid()
      ensures IsHighWater(State(), n)
    {
      assert forall k :: k in rows ==> Runs.RowOk(State(), k);
      hide Runs.Inv;
      n := 0;
      var rest := rows.Keys;
      while rest != {}
        invariant rest <= rows.Keys
        invariant forall k :: k in rows && k !in rest ==> rows[k].sequence <= n
        invariant rest == rows.Keys ==> n == 0
        invariant rest != rows.Keys ==> exists k :: k in rows && rows[k].sequence == n
        decreases rest
      {
        var k :| k in rest;
        assert Runs.RowOk(State(), k);
        if rows[k].sequence > n || rest == rows.Keys {
          n := rows[k].sequence;
        }
        rest := rest - {k};
      }
      assert rows == map[] ==> rows.Keys == {};
      assert rows.Keys == {} ==> rows == map[];
    }
  }
}
