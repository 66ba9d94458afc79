/** The delivery outbox: decided approvals waiting to reach the run that asked for them.

    Each function is one write transaction on the outbox tables; a refused transaction
    rolls back and leaves them alone. Clock readings are inputs. */
module DeliveryOutbox {
  import opened Json
  import opened ApprovalPolicy

  datatype Key = Key(approvalId: string, toolCallId: string, nonce: string)

  datatype DeliveryState = Pending | Published | Acknowledged | Quarantined

  /** The run a delivery is addressed to. */
  datatype Address = Address(taskId: string, controlRunId: string, sessionId: string, channelId: string)

  datatype Row = Row(
    sequence: int,
    key: Key,
    address: Address,
    approved: bool,
    decidedAt: int,
    voteId: Option<string>,
    voteAuditId: Option<string>,
    createdAt: int,
    state: DeliveryState,
    attempts: int,
    lastError: Option<string>,
    lastAttempt: Option<int>,
    updatedAt: int,
    auditReadyAt: Option<int>,
    publishedAt: Option<int>,
    acknowledgedAt: Option<int>,
    quarantinedAt: Option<int>,
    auditReady: bool)

  datatype Outbox = Outbox(
    rows: map<Key, Row>,
    clock: Option<int>,
    nextSequence: Option<int>,
    fences: set<string>)

  const EMPTY_OUTBOX := Outbox(map[], None, None, {})

  datatype Fault =
    | NotFound | DecisionChanged | AuditNotReady | NotPending | CannotReconcile | NotPublished | AddressMismatch
    | Fenced | ClockRollback | SequenceInvalid | CheckFailed | CasFailed | Duplicate | DecisionMismatch | BodyFailed
    | ReservationActive | StaleGeneration | ReservationMismatch

  datatype Reply = Refused(fault: Fault) | Committed(outbox: Outbox)

  // ------------------------------------------------------- table constraints

  /** The outbox table's CHECK constraints. */
  predicate RowCheck(r: Row) {
    && r.sequence > 0
    && r.decidedAt > 0
    && (r.lastAttempt.Some? ==> r.lastAttempt.value > 0)
    && r.attempts >= 0
    && (r.voteId.None? <==> r.voteAuditId.None?)
    && (r.auditReady <==> r.auditReadyAt.Some?)
    && (r.state in {Published, Acknowledged} ==> r.auditReady)
    && (r.publishedAt.Some? <==> r.state in {Published, Acknowledged})
    && (r.acknowledgedAt.Some? <==> r.state.Acknowledged?)
    && (r.quarantinedAt.Some? <==> r.state.Quarantined?)
  }

  predicate ClockRefuses(o: Outbox, now: int) {
    o.clock.Some? && now < o.clock.value
  }

  /** Advance the durable clock high-water, or refuse a clock that went back. */
  function Tick(o: Outbox, now: int): Reply {
    if ClockRefuses(o, now) then Refused(ClockRollback)
    else if now <= 0 then Refused(CheckFailed)
    else Committed(o.(clock := Some(now)))
  }

  function Put(o: Outbox, row: Row): Reply {
    if !RowCheck(row) then Refused(CheckFailed) else Committed(o.(rows := o.rows[row.key := row]))
  }

  function TickThenPut(o: Outbox, now: int, row: Row): Reply {
    match Tick(o, now)
    case Refused(f) => Refused(f)
    case Committed(o') => Put(o', row)
  }

  // ------------------------------------------------------------ transactions

  const SQLITE_MAX := 0x7FFF_FFFF_FFFF_FFFF

  function Next(o: Outbox): int {
    if o.nextSequence.Some? then o.nextSequence.value else 1
  }

  datatype Delivery = Delivery(key: Key, address: Address, approved: bool, decidedAt: int, voteId: Option<string>,
                               voteAuditId: Option<string>)

  predicate SameApproval(o: Outbox, id: string) {
    exists k :: k in o.rows && k.approvalId == id
  }

  function NewRow(o: Outbox, d: Delivery, now: int): Row {
    Row(Next(o), d.key, d.address, d.approved, d.decidedAt, d.voteId, d.voteAuditId, now,
        Pending, 0, None, None, now, None, None, None, None, false)
  }

  /** Queue the outcome of a decided request. */
  function Insert(o: Outbox, d: Delivery, decided: ApprovalState, now: int): Reply {
    if decided != (if d.approved then Approved else Denied) then Refused(DecisionMismatch)
    else
      match Tick(o, now)
      case Refused(f) => Refused(f)
      case Committed(o1) =>
        if o1.nextSequence.Some? && !(1 <= o1.nextSequence.value < SQLITE_MAX) then Refused(SequenceInvalid)
        else if SameApproval(o1, d.key.approvalId) then Refused(Duplicate)
        else Put(o1.(nextSequence := Some(Next(o1) + 1)), NewRow(o1, d, now))
  }

  function MarkAudited(o: Outbox, k: Key, now: int): Reply {
    match Tick(o, now)
    case Refused(f) => Refused(f)
    case Committed(o1) =>
      if k !in o1.rows then Refused(NotFound)
      else
        var r := o1.rows[k];
        if r.auditReady then Committed(o1)
        else if !r.state.Pending? then Refused(CasFailed)
        else Put(o1, r.(auditReady := true, auditReadyAt := Some(now), updatedAt := now))
  }

  /** What must hold before the child inbox is written, and the first check that fails. */
  function PreYield(o: Outbox, k: Key, approved: bool): Option<Fault> {
    if k !in o.rows then Some(NotFound)
    else
      var r := o.rows[k];
      if r.approved != approved then Some(DecisionChanged)
      else if !r.auditReady then Some(AuditNotReady)
      else if !r.state.Pending? then Some(NotPending)
      else if approved && k.approvalId in o.fences then Some(Fenced)
      else None
  }

  /** The compare-and-set that publishes a pending, audited row. */
  function Publish(o: Outbox, k: Key, now: int): Reply {
    match Tick(o, now)
    case Refused(f) => Refused(f)
    case Committed(o1) =>
      if k !in o1.rows || !o1.rows[k].state.Pending? || !o1.rows[k].auditReady then Refused(CasFailed)
      else
        var r := o1.rows[k];
        Put(o1, r.(state := Published, attempts := r.attempts + 1, lastError := None, updatedAt := now,
                   publishedAt := Some(now)))
  }

  /** The local append: check, write the child inbox, publish, all in one transaction. */
  function Append(o: Outbox, k: Key, approved: bool, written: bool, now: int): Reply {
    match PreYield(o, k, approved)
    case Some(f) => Refused(f)
    case None => if !written then Refused(BodyFailed) else Publish(o, k, now)
  }

  /** Publish a row whose child record already survived a crash. */
  function Reconcile(o: Outbox, k: Key, approved: bool, now: int): Reply {
    if k !in o.rows then Refused(NotFound)
    else
      var r := o.rows[k];
      if r.approved != approved then Refused(DecisionChanged)
      else if !r.auditReady then Refused(AuditNotReady)
      else if r.state in {Published, Acknowledged} then Committed(o)
      else if !r.state.Pending? then Refused(CannotReconcile)
      else if approved && k.approvalId in o.fences then Refused(Fenced)
      else Publish(o, k, now)
  }

  function Acknowledge(o: Outbox, k: Key, address: Address, approved: bool, decidedAt: int, now: int): Reply {
    match Tick(o, now)
    case Refused(f) => Refused(f)
    case Committed(o1) =>
      if k !in o1.rows then Refused(NotFound)
      else
        var r := o1.rows[k];
        if r.address != address || r.approved != approved || r.decidedAt != decidedAt then Refused(AddressMismatch)
        else if !r.auditReady then Refused(AuditNotReady)
        else if r.state.Acknowledged? then Committed(o1)
        else if !r.state.Published? then Refused(NotPublished)
        else Put(o1, r.(state := Acknowledged, lastError := None, updatedAt := now, acknowledgedAt := Some(now)))
  }

  /** Record a failed attempt; the row keeps its state. */
  function Fail(o: Outbox, k: Key, error: string, now: int): Reply {
    if k !in o.rows then Refused(NotFound)
    else
      var r := o.rows[k];
      if r.state in {Acknowledged, Quarantined} then Committed(o)
      else TickThenPut(o, now, r.(attempts := r.attempts + 1, lastError := Some(error), updatedAt := now,
                                  lastAttempt := Some(now)))
  }

  /** Give up on a row that can never be delivered. */
  function Quarantine(o: Outbox, k: Key, error: string, now: int): Reply {
    if k !in o.rows then Refused(NotFound)
    else
      var r := o.rows[k];
      if r.state.Quarantined? then Committed(o)
      else if !r.state.Pending? then Refused(NotPending)
      else TickThenPut(o, now, r.(state := Quarantined, attempts := r.attempts + 1, lastError := Some(error),
                                  updatedAt := now,
                                  lastAttempt := Some(now), quarantinedAt := Some(now)))
  }

  function FenceApproval(o: Outbox, id: string): Reply {
    Committed(o.(fences := o.fences + {id}))
  }

  // ---------------------------------------------------------------- recovery

  /** The greatest sequence handed out, or zero. */
  ghost predicate IsHighWater(o: Outbox, n: int) {
    && (forall k :: k in o.rows ==> o.rows[k].sequence <= n)
    && (if o.rows == map[] then n == 0 else exists k :: k in o.rows && o.rows[k].sequence == n)
  }

  /** Pending rows a drain of the window (after, through] visits. */
  function Window(o: Outbox, after: int, through: int): set<Key> {
    set k | k in o.rows && o.rows[k].state.Pending? && after < o.rows[k].sequence <= through
  }

  // -------------------------------------------------------------- all writers

  datatype Op =
    | OpInsert(delivery: Delivery, decided: ApprovalState, now: int)
    | OpAudit(key: Key, now: int)
    | OpAppend(key: Key, approved: bool, written: bool, now: int)
    | OpReconcile(key: Key, approved: bool, now: int)
    | OpAcknowledge(key: Key, address: Address, approved: bool, decidedAt: int, now: int)
    | OpFail(key: Key, error: string, now: int)
    | OpQuarantine(key: Key, error: string, now: int)
    | OpFence(id: string)
    | OpWindow(now: int)

  function Perform(o: Outbox, op: Op): Reply {
    match op
    case OpInsert(d, decided, now) => Insert(o, d, decided, now)
    case OpAudit(k, now) => MarkAudited(o, k, now)
    case OpAppend(k, approved, written, now) => Append(o, k, approved, written, now)
    case OpReconcile(k, approved, now) => Reconcile(o, k, approved, now)
    case OpAcknowledge(k, address, approved, decidedAt, now) => Acknowledge(o, k, address, approved, decidedAt, now)
    case OpFail(k, error, now) => Fail(o, k, error, now)
    case OpQuarantine(k, error, now) => Quarantine(o, k, error, now)
    case OpFence(id) => FenceApproval(o, id)
    case OpWindow(now) => Tick(o, now)
  }

  function After(o: Outbox, r: Reply): Outbox {
    match r { case Committed(o') => o' case Refused(_) => o }
  }

  function Run(ops: seq<Op>): Outbox {
    if ops == [] then EMPTY_OUTBOX
    else var o := Run(ops[..|ops| - 1]); After(o, Perform(o, ops[|ops| - 1]))
  }
}
