/** What every outbox transaction keeps, and what whole runs guarantee. */
module OutboxRuns {
  import opened Json
  import opened ApprovalPolicy
  import opened DeliveryOutbox

  // --------------------------------------------------------------- invariant

  predicate NotAfter(a: Option<int>, b: Option<int>) {
    a.Some? && b.Some? ==> a.value <= b.value
  }

  /** Timestamps follow the life of the row and never pass the clock. */
  predicate TimesOk(r: Row, clock: Option<int>) {
    && clock.Some?
    && r.createdAt <= clock.value && r.updatedAt <= clock.value
    && (r.auditReadyAt.Some? ==> r.createdAt <= r.auditReadyAt.value <= clock.value)
    && (r.publishedAt.Some? ==> r.auditReadyAt.Some? && r.auditReadyAt.value <= r.publishedAt.value <= clock.value)
    && (r.acknowledgedAt.Some? ==> r.publishedAt.Some? && r.publishedAt.value <= r.acknowledgedAt.value <= clock.value)
    && (r.quarantinedAt.Some? ==> r.createdAt <= r.quarantinedAt.value <= clock.value)
  }

  predicate RowOk(o: Outbox, k: Key) {
    k in o.rows ==>
      && o.rows[k].key == k
      && RowCheck(o.rows[k])
      && TimesOk(o.rows[k], o.clock)
      && o.rows[k].sequence < Next(o)
  }

  /** One row per approval, one row per sequence number. */
  predicate Distinct(o: Outbox) {
    forall k, l | k in o.rows && l in o.rows && (k.approvalId == l.approvalId
                                                 || o.rows[k].sequence == o.rows[l].sequence) ::
      k == l
  }

  ghost predicate Inv(o: Outbox) {
    && (forall k :: RowOk(o, k))
    && Distinct(o)
    && Next(o) >= 1
    && (o.clock.Some? ==> o.clock.value > 0)
  }

  // --------------------------------------------------- what a step may change

  /** Pending to published to acknowledged, or pending to quarantined. */
  predicate Moves(s: DeliveryState, s': DeliveryState) {
    s == s' || s.Pending? || (s.Published? && s'.Acknowledged?)
  }

  predicate Kept(a: Option<int>, a': Option<int>) {
    a.Some? ==> a' == a
  }

  predicate RowEvolves(r: Row, r': Row) {
    && r'.sequence == r.sequence && r'.key == r.key && r'.address == r.address && r'.approved == r.approved
    && r'.decidedAt == r.decidedAt && r'.voteId == r.voteId && r'.voteAuditId == r.voteAuditId
       && r'.createdAt == r.createdAt
    && Moves(r.state, r'.state)
    && r.attempts <= r'.attempts
    && (r.auditReady ==> r'.auditReady)
    && Kept(r.auditReadyAt, r'.auditReadyAt) && Kept(r.publishedAt, r'.publishedAt)
    && Kept(r.acknowledgedAt, r'.acknowledgedAt) && Kept(r.quarantinedAt, r'.quarantinedAt)
  }

  predicate Out(s: DeliveryState) {
    s in {Published, Acknowledged}
  }

  /** An approved delivery of a fenced approval is out only if it already was. */
  predicate FenceHeld(o: Outbox, o': Outbox, k: Key) {
    k in o'.rows && k.approvalId in o.fences && o'.rows[k].approved && Out(o'.rows[k].state) ==>
      k in o.rows && Out(o.rows[k].state)
  }

  ghost predicate Evolves(o: Outbox, o': Outbox) {
    && (forall k :: k in o.rows ==> k in o'.rows && RowEvolves(o.rows[k], o'.rows[k]))
    && (forall k :: k in o'.rows && k !in o.rows ==> Next(o) <= o'.rows[k].sequence)
    && (forall k :: FenceHeld(o, o', k))
    && o.fences <= o'.fences
    && (o.clock.Some? ==> o'.clock.Some?) && NotAfter(o.clock, o'.clock)
    && Next(o) <= Next(o')
  }

  lemma EvolvesReflexive(o: Outbox)
    ensures Evolves(o, o)
  {
  }

  lemma EvolvesTransitive(o: Outbox, o': Outbox, o'': Outbox)
    requires Evolves(o, o') && Evolves(o', o'')
    ensures Evolves(o, o'')
  {
    forall k | k in o.rows
      ensures k in o''.rows && RowEvolves(o.rows[k], o''.rows[k])
    {
      assert RowEvolves(o.rows[k], o'.rows[k]) && RowEvolves(o'.rows[k], o''.rows[k]);
    }
    forall k | k in o''.rows && k !in o.rows
      ensures Next(o) <= o''.rows[k].sequence
    {
      if k in o'.rows {
        assert RowEvolves(o'.rows[k], o''.rows[k]);
      }
    }
    forall k
      ensures FenceHeld(o, o'', k)
    {
      assert FenceHeld(o', o'', k);
      if k in o'.rows && k in o''.rows {
        assert RowEvolves(o'.rows[k], o''.rows[k]);
        assert FenceHeld(o, o', k);
      }
    }
  }

  ghost predicate Good(o: Outbox, o': Outbox) {
    Inv(o') && Evolves(o, o')
  }

  // ---------------------------------------------------------- one row or none

  lemma ClockGood(o: Outbox, now: int)
    requires Inv(o) && !ClockRefuses(o, now) && now > 0
    ensures Good(o, o.(clock := Some(now)))
  {
    var o' := o.(clock := Some(now));
    forall k
      ensures RowOk(o', k)
    {
      assert RowOk(o, k);
    }
  }

  lemma RowKeepsInv(o: Outbox, k: Key, r': Row, now: int)
    requires Inv(o) && !ClockRefuses(o, now) && now > 0
    requires k in o.rows && r'.key == k && r'.sequence == o.rows[k].sequence && RowCheck(r') && TimesOk(r', Some(now))
    ensures Inv(o.(clock := Some(now), rows := o.rows[k := r']))
  {
    hide RowCheck;
    var o' := o.(clock := Some(now), rows := o.rows[k := r']);
    assert RowOk(o, k);
    forall l
      ensures RowOk(o', l)
    {
      assert RowOk(o, l);
    }
  }

  lemma RowGood(o: Outbox, k: Key, r': Row, now: int)
    requires Inv(o) && !ClockRefuses(o, now) && now > 0
    requires k in o.rows && RowEvolves(o.rows[k], r') && RowCheck(r') && TimesOk(r', Some(now))
    requires k.approvalId in o.fences && r'.approved && Out(r'.state) ==> Out(o.rows[k].state)
    ensures Good(o, o.(clock := Some(now), rows := o.rows[k := r']))
  {
    assert RowOk(o, k);
    RowKeepsInv(o, k, r', now);
    hide Inv;
    hide RowCheck;
    hide TimesOk;
    RowKeepsEvolving(o, k, r', now);
  }

  lemma RowKeepsEvolving(o: Outbox, k: Key, r': Row, now: int)
    requires !ClockRefuses(o, now) && k in o.rows && RowEvolves(o.rows[k], r')
    requires k.approvalId in o.fences && r'.approved && Out(r'.state) ==> Out(o.rows[k].state)
    ensures Evolves(o, o.(clock := Some(now), rows := o.rows[k := r']))
  {
    assert forall l :: l in o.rows ==> RowEvolves(o.rows[l], o.rows[l]);
    hide RowEvolves;
  }

  lemma InsertKeepsInv(o: Outbox, d: Delivery, now: int)
    requires Inv(o) && !ClockRefuses(o, now) && now > 0 && !SameApproval(o, d.key.approvalId)
    requires RowCheck(NewRow(o, d, now))
    ensures Inv(o.(clock := Some(now), nextSequence := Some(Next(o) + 1), rows := o.rows[d.key := NewRow(o, d, now)]))
  {
    var row := NewRow(o, d, now);
    var o' := o.(clock := Some(now), nextSequence := Some(Next(o) + 1), rows := o.rows[d.key := row]);
    hide RowCheck;
    forall l
      ensures RowOk(o', l)
    {
      assert RowOk(o, l);
    }
    assert Distinct(o') by {
      assert forall k :: k in o.rows ==> RowOk(o, k);
      hide TimesOk;
    }
  }

  lemma InsertGood(o: Outbox, d: Delivery, now: int)
    requires Inv(o) && !ClockRefuses(o, now) && now > 0 && !SameApproval(o, d.key.approvalId)
    requires RowCheck(NewRow(o, d, now))
    ensures Good(o, o.(clock := Some(now), nextSequence := Some(Next(o) + 1),
                       rows := o.rows[d.key := NewRow(o, d, now)]))
  {
    InsertKeepsInv(o, d, now);
    hide Inv;
    hide RowCheck;
    assert d.key !in o.rows;
    assert forall l :: l in o.rows ==> RowEvolves(o.rows[l], o.rows[l]);
    hide RowEvolves;
  }

  /** A transaction that commits keeps the tables good; one that refuses never failed a
      compare-and-set, nor a CHECK unless its clock or decision time was not positive. */
  ghost predicate CommitsGood(o: Outbox, r: Reply, times: bool) {
    match r
    case Committed(o') => Good(o, o')
    case Refused(f) => f != CasFailed && (f == CheckFailed ==> !times)
  }

  lemma InsertKeeps(o: Outbox, d: Delivery, decided: ApprovalState, now: int)
    requires Inv(o)
    ensures CommitsGood(o, Insert(o, d, decided, now), now > 0 && d.decidedAt > 0
                        && (d.voteId.None? <==> d.voteAuditId.None?))
  {
    hide Good;
    hide Inv;
    if Insert(o, d, decided, now).Committed? {
      InsertGood(o, d, now);
    } else {
      NextPositive(o);
    }
  }

  lemma NextPositive(o: Outbox)
    requires Inv(o)
    ensures Next(o) >= 1
  {
  }

  lemma AuditKeeps(o: Outbox, k: Key, now: int)
    requires Inv(o)
    ensures MarkAudited(o, k, now) != Refused(CasFailed) ==> CommitsGood(o, MarkAudited(o, k, now), now > 0)
    ensures MarkAudited(o, k, now) == Refused(CasFailed) ==>
              k in o.rows && o.rows[k].state.Quarantined? && !o.rows[k].auditReady
  {
    hide Good;
    assert RowOk(o, k);
    if Tick(o, now).Committed? {
      ClockGood(o, now);
      if k in o.rows && !o.rows[k].auditReady && o.rows[k].state.Pending? {
        hide Inv;
        RowGood(o, k, o.rows[k].(auditReady := true, auditReadyAt := Some(now), updatedAt := now), now);
      }
    }
  }

  lemma PublishKeeps(o: Outbox, k: Key, now: int)
    requires Inv(o) && k in o.rows && o.rows[k].state.Pending? && o.rows[k].auditReady
    requires !(o.rows[k].approved && k.approvalId in o.fences)
    ensures CommitsGood(o, Publish(o, k, now), now > 0)
  {
    hide Good;
    assert RowOk(o, k);
    hide Inv;
    var r := o.rows[k];
    if Tick(o, now).Committed? {
      RowGood(o, k, r.(state := Published, attempts := r.attempts + 1, lastError := None, updatedAt := now,
                       publishedAt := Some(now)), now);
    }
  }

  lemma SameGood(o: Outbox)
    requires Inv(o)
    ensures Good(o, o)
  {
    EvolvesReflexive(o);
  }

  lemma AppendKeeps(o: Outbox, k: Key, approved: bool, written: bool, now: int)
    requires Inv(o)
    ensures CommitsGood(o, Append(o, k, approved, written, now), now > 0)
  {
    hide Good;
    hide Inv;
    hide Publish;
    if PreYield(o, k, approved).None? && written {
      PublishKeeps(o, k, now);
    }
  }

  lemma ReconcileKeeps(o: Outbox, k: Key, approved: bool, now: int)
    requires Inv(o)
    ensures CommitsGood(o, Reconcile(o, k, approved, now), now > 0)
  {
    hide Good;
    hide Inv;
    hide Publish;
    SameGood(o);
    if PreYield(o, k, approved).None? {
      PublishKeeps(o, k, now);
    }
  }

  lemma AcknowledgeKeeps(o: Outbox, k: Key, address: Address, approved: bool, decidedAt: int, now: int)
    requires Inv(o)
    ensures CommitsGood(o, Acknowledge(o, k, address, approved, decidedAt, now), now > 0)
  {
    hide Good;
    assert RowOk(o, k);
    if Tick(o, now).Committed? {
      ClockGood(o, now);
      hide Inv;
      if k in o.rows && o.rows[k].state.Published? {
        RowGood(o, k, o.rows[k].(state := Acknowledged, lastError := None, updatedAt := now,
                                 acknowledgedAt := Some(now)), now);
      }
    }
  }

  lemma FailKeeps(o: Outbox, k: Key, error: string, now: int)
    requires Inv(o)
    ensures CommitsGood(o, Fail(o, k, error, now), now > 0)
  {
    hide Good;
    assert RowOk(o, k);
    SameGood(o);
    hide Inv;
    if k in o.rows && o.rows[k].state in {Pending, Published} && Tick(o, now).Committed? {
      var r := o.rows[k];
      RowGood(o, k, r.(attempts := r.attempts + 1, lastError := Some(error), updatedAt := now,
                       lastAttempt := Some(now)), now);
    }
  }

  lemma QuarantineKeeps(o: Outbox, k: Key, error: string, now: int)
    requires Inv(o)
    ensures CommitsGood(o, Quarantine(o, k, error, now), now > 0)
  {
    hide Good;
    assert RowOk(o, k);
    SameGood(o);
    hide Inv;
    if k in o.rows && o.rows[k].state.Pending? && Tick(o, now).Committed? {
      var r := o.rows[k];
      RowGood(o, k, r.(state := Quarantined, attempts := r.attempts + 1, lastError := Some(error), updatedAt := now,
                       lastAttempt := Some(now), quarantinedAt := Some(now)), now);
    }
  }

  lemma FenceKeeps(o: Outbox, id: string)
    requires Inv(o)
    ensures CommitsGood(o, FenceApproval(o, id), true)
  {
    var o' := o.(fences := o.fences + {id});
    forall k
      ensures RowOk(o', k)
    {
      assert RowOk(o, k);
    }
  }

  // ------------------------------------------------------------------- runs

  /** Clock readings and decision times are positive, and a vote comes with its audit entry. */
  predicate PositiveTimes(op: Op) {
    match op
    case OpInsert(d, _, now) => now > 0 && d.decidedAt > 0 && (d.voteId.None? <==> d.voteAuditId.None?)
    case OpAudit(_, now) => now > 0
    case OpAppend(_, _, _, now) => now > 0
    case OpReconcile(_, _, now) => now > 0
    case OpAcknowledge(_, _, _, _, now) => now > 0
    case OpFail(_, _, now) => now > 0
    case OpQuarantine(_, _, now) => now > 0
    case OpFence(_) => true
    case OpWindow(now) => now > 0
  }

  /** The audit receipt arrived for a row that was quarantined first. */
  predicate LateAudit(o: Outbox, op: Op) {
    op.OpAudit? && op.key in o.rows && o.rows[op.key].state.Quarantined? && !o.rows[op.key].auditReady
  }

  lemma PerformKeeps(o: Outbox, op: Op)
    requires Inv(o)
    ensures Perform(o, op) != Refused(CasFailed) ==> CommitsGood(o, Perform(o, op), PositiveTimes(op))
    ensures Perform(o, op) == Refused(CasFailed) ==> LateAudit(o, op)
  {
    hide Insert;
    hide MarkAudited;
    hide Append;
    hide Reconcile;
    hide Acknowledge;
    hide Fail;
    hide Quarantine;
    hide FenceApproval;
    match op {
      case OpInsert(d, decided, now) => InsertKeeps(o, d, decided, now);
      case OpAudit(k, now) => AuditKeeps(o, k, now);
      case OpAppend(k, approved, written, now) => AppendKeeps(o, k, approved, written, now);
      case OpReconcile(k, approved, now) => ReconcileKeeps(o, k, approved, now);
      case OpAcknowledge(k, address, approved, decidedAt, now) => AcknowledgeKeeps(o, k, address, approved, decidedAt,
                                                                                   now);
      case OpFail(k, error, now) => FailKeeps(o, k, error, now);
      case OpQuarantine(k, error, now) => QuarantineKeeps(o, k, error, now);
      case OpFence(id) => FenceKeeps(o, id);
      case OpWindow(now) => if Tick(o, now).Committed? { ClockGood(o, now); }
    }
  }

  lemma StepGood(o: Outbox, op: Op)
    requires Inv(o)
    ensures Good(o, After(o, Perform(o, op)))
  {
    PerformKeeps(o, op);
    SameGood(o);
    hide Good;
    hide Perform;
  }

  lemma {:induction false} RunKeeps(ops: seq<Op>)
    ensures Inv(Run(ops))
  {
    if ops == [] {
    } else {
      hide Perform;
      RunKeeps(ops[..|ops| - 1]);
      StepGood(Run(ops[..|ops| - 1]), ops[|ops| - 1]);
    }
  }

  lemma RunStep(ops: seq<Op>, i: nat)
    requires i < |ops|
    ensures Run(ops[..i + 1]) == After(Run(ops[..i]), Perform(Run(ops[..i]), ops[i]))
  {
    hide Perform;
    assert ops[..i + 1][..i] == ops[..i];
  }

  lemma {:induction false} RunEvolves(ops: seq<Op>, i: nat, j: nat)
    requires i <= j <= |ops|
    ensures Evolves(Run(ops[..i]), Run(ops[..j]))
    decreases j
  {
    hide Evolves;
    hide Run;
    hide Perform;
    hide Inv;
    if i == j {
      EvolvesReflexive(Run(ops[..i]));
    } else {
      RunEvolves(ops, i, j - 1);
      RunStep(ops, j - 1);
      RunKeeps(ops[..j - 1]);
      StepGood(Run(ops[..j - 1]), ops[j - 1]);
      EvolvesTransitive(Run(ops[..i]), Run(ops[..j - 1]), Run(ops[..j]));
    }
  }

  /** A row only moves pending to published to acknowledged, or pending to quarantined,
      and never loses or rewrites a timestamp on the way. */
  lemma StatesMoveForward(ops: seq<Op>, i: nat, j: nat, k: Key)
    requires i <= j <= |ops| && k in Run(ops[..i]).rows
    ensures k in Run(ops[..j]).rows
    ensures var s, s' := Run(ops[..i]).rows[k].state, Run(ops[..j]).rows[k].state;
            && (s.Quarantined? ==> s'.Quarantined?)
            && (s.Acknowledged? ==> s'.Acknowledged?)
            && (s.Published? ==> s' in {Published, Acknowledged})
    ensures RowEvolves(Run(ops[..i]).rows[k], Run(ops[..j]).rows[k])
  {
    hide Run;
    RunEvolves(ops, i, j);
  }

  lemma LateAuditIsRefused(o: Outbox, op: Op)
    requires LateAudit(o, op)
    ensures Perform(o, op) == Refused(CasFailed) <==> Tick(o, op.now).Committed?
  {
  }

  /** No transaction trips a CHECK constraint, and the only compare-and-set that can fail
      is an audit receipt for a row quarantined before it arrived. */
  lemma ConstraintsNeverTrip(ops: seq<Op>, op: Op)
    ensures PositiveTimes(op) ==> Perform(Run(ops), op) != Refused(CheckFailed)
    ensures Perform(Run(ops), op) == Refused(CasFailed) <==>
              LateAudit(Run(ops), op) && Tick(Run(ops), op.now).Committed?
    ensures forall k :: k in Run(ops).rows ==> RowCheck(Run(ops).rows[k])
  {
    RunKeeps(ops);
    hide Run;
    PerformKeeps(Run(ops), op);
    if LateAudit(Run(ops), op) {
      LateAuditIsRefused(Run(ops), op);
    }
    hide Perform;
    forall k | k in Run(ops).rows
      ensures RowCheck(Run(ops).rows[k])
    {
      assert RowOk(Run(ops), k);
    }
  }

  /** The compare-and-set failure is real: quarantine a row, then let its audit receipt land. */
  lemma LateAuditFails(d: Delivery)
    requires d.decidedAt > 0 && d.voteId.None? && d.voteAuditId.None?
    ensures var decided := if d.approved then Approved else Denied;
            var ops := [OpInsert(d, decided, 1), OpQuarantine(d.key, "undeliverable", 2)];
            Perform(Run(ops), OpAudit(d.key, 3)) == Refused(CasFailed)
  {
    var decided := if d.approved then Approved else Denied;
    var ops := [OpInsert(d, decided, 1), OpQuarantine(d.key, "undeliverable", 2)];
    RunStep(ops, 0);
    RunStep(ops, 1);
    assert ops[..0] == [] && ops[..2] == ops;
  }

  /** Created, audited, published and acknowledged in that order, none after the clock. */
  lemma TimesAreOrdered(ops: seq<Op>, k: Key)
    requires k in Run(ops).rows
    ensures var o := Run(ops); var r := o.rows[k];
            && o.clock.Some?
            && (r.auditReadyAt.Some? ==> r.createdAt <= r.auditReadyAt.value <= o.clock.value)
            && (r.publishedAt.Some? ==>
                  r.auditReadyAt.Some? && r.auditReadyAt.value <= r.publishedAt.value <= o.clock.value)
            && (r.acknowledgedAt.Some? ==>
                  r.publishedAt.Some? && r.publishedAt.value <= r.acknowledgedAt.value <= o.clock.value)
  {
    RunKeeps(ops);
    hide Run;
    assert RowOk(Run(ops), k);
  }

  /** Sequence numbers are positive, distinct and below the counter. */
  lemma SequencesAreDistinct(ops: seq<Op>, k: Key, l: Key)
    requires k in Run(ops).rows && l in Run(ops).rows
    ensures 0 < Run(ops).rows[k].sequence < Next(Run(ops))
    ensures k != l ==> Run(ops).rows[k].sequence != Run(ops).rows[l].sequence && k.approvalId != l.approvalId
  {
    RunKeeps(ops);
    hide Run;
    assert RowOk(Run(ops), k);
  }

  /** A recovery window taken at one point never gains a row that came later. */
  lemma WindowIsClosed(ops: seq<Op>, i: nat, j: nat, after: int, highWater: int)
    requires i <= j <= |ops| && IsHighWater(Run(ops[..i]), highWater)
    ensures Window(Run(ops[..j]), after, highWater) <= Window(Run(ops[..i]), after, highWater)
    ensures forall k :: k in Run(ops[..j]).rows && k !in Run(ops[..i]).rows ==>
              Run(ops[..j]).rows[k].sequence > highWater
  {
    RunEvolves(ops, i, j);
    RunKeeps(ops[..i]);
    hide Run;
    var o, o' := Run(ops[..i]), Run(ops[..j]);
    assert highWater < Next(o) by {
      if o.rows != map[] {
        var k :| k in o.rows && o.rows[k].sequence == highWater;
        assert RowOk(o, k);
      }
    }
    hide Inv;
    forall k | k in Window(o', after, highWater)
      ensures k in Window(o, after, highWater)
    {
      assert k in o.rows;
      assert RowEvolves(o.rows[k], o'.rows[k]);
    }
  }

  /** Once an approval is fenced, its approved delivery is out only if it already was. */
  lemma FencedIsNeverPublished(ops: seq<Op>, i: nat, j: nat, k: Key)
    requires i <= j <= |ops| && k.approvalId in Run(ops[..i]).fences
    requires k in Run(ops[..j]).rows && Run(ops[..j]).rows[k].approved && Out(Run(ops[..j]).rows[k].state)
    ensures k in Run(ops[..i]).rows && Out(Run(ops[..i]).rows[k].state)
  {
    hide Run;
    RunEvolves(ops, i, j);
    assert FenceHeld(Run(ops[..i]), Run(ops[..j]), k);
  }

  // -------------------------------------------------------- attempt counting

  predicate RecordsFailure(o: Outbox, op: Op, k: Key) {
    && op.OpFail? && op.key == k && k in o.rows && o.rows[k].state in {Pending, Published}
    && Fail(o, k, op.error, op.now).Committed?
  }

  function Failures(ops: seq<Op>, k: Key): nat {
    if ops == [] then 0
    else
      Failures(ops[..|ops| - 1], k) + (if RecordsFailure(Run(ops[..|ops| - 1]), ops[|ops| - 1], k) then 1 else 0)
  }

  function Settlements(r: Row): int {
    if r.state.Pending? then 0 else 1
  }

  function Balance(o: Outbox, k: Key): int {
    if k in o.rows then o.rows[k].attempts - Settlements(o.rows[k]) else 0
  }

  lemma PublishBalance(o: Outbox, k: Key, l: Key, now: int)
    requires Inv(o)
    ensures Balance(After(o, Publish(o, k, now)), l) == Balance(o, l)
  {
    assert RowOk(o, k);
  }

  lemma PublishingBalance(o: Outbox, op: Op, k: Key)
    requires Inv(o) && (op.OpAppend? || op.OpReconcile?)
    ensures Balance(After(o, Perform(o, op)), k) == Balance(o, k)
  {
    hide Inv;
    hide Publish;
    PublishBalance(o, op.key, k, op.now);
  }

  lemma WritingBalance(o: Outbox, op: Op, k: Key)
    requires Inv(o) && (op.OpInsert? || op.OpAudit? || op.OpFence? || op.OpWindow?)
    ensures Balance(After(o, Perform(o, op)), k) == Balance(o, k)
  {
    if op.OpAudit? {
      assert RowOk(o, op.key);
    } else {
      hide Inv;
    }
  }

  /** Leaving the pending state and failing are the only things an attempt count counts. */
  lemma BalanceStep(o: Outbox, op: Op, k: Key)
    requires Inv(o)
    ensures Balance(After(o, Perform(o, op)), k) == Balance(o, k) + (if RecordsFailure(o, op, k) then 1 else 0)
  {
    if op.OpAppend? || op.OpReconcile? {
      hide Perform;
      PublishingBalance(o, op, k);
    } else if op.OpInsert? || op.OpAudit? || op.OpFence? || op.OpWindow? {
      hide Perform;
      WritingBalance(o, op, k);
    } else {
      assert RowOk(o, op.key);
      hide Inv;
    }
  }

  /** The attempt count is the recorded failures, plus one exactly when the row is no longer pending. */
  lemma {:induction false} AttemptsCountFailures(ops: seq<Op>, k: Key)
    ensures Balance(Run(ops), k) == Failures(ops, k)
    ensures k in Run(ops).rows ==>
              Run(ops).rows[k].attempts == Failures(ops, k) + (if Run(ops).rows[k].state.Pending? then 0 else 1)
  {
    if ops == [] {
    } else {
      hide Perform;
      hide RecordsFailure;
      AttemptsCountFailures(ops[..|ops| - 1], k);
      RunKeeps(ops[..|ops| - 1]);
      BalanceStep(Run(ops[..|ops| - 1]), ops[|ops| - 1], k);
    }
  }
}
