/** Split-phase publication: a remote client reserves a delivery, writes the child inbox,
    and then commits or aborts, while other writers of the same store interleave.

    The store itself is `DeliveryOutbox`; this module adds the reservations table and the
    placement generation, and shows that every run refines a run of the local store, in
    which the append is one transaction. */
module Publication {
  import opened Json
  import opened ApprovalPolicy
  import Outbox = DeliveryOutbox
  import Runs = OutboxRuns

  type Key = Outbox.Key

  /** What a reserve hands to the client. */
  datatype Reservation = Reservation(key: Key, approved: bool, generation: int)

  datatype Slot = Slot(key: Key, generation: int)

  datatype Hold = Hold(approved: bool, committed: bool)

  datatype Service = Service(outbox: Outbox.Outbox, holds: map<Slot, Hold>, generation: int)

  datatype Outcome<+T> = Raised(fault: Outbox.Fault) | Done(value: T)

  function SlotOf(r: Reservation): Slot {
    Slot(r.key, r.generation)
  }

  predicate Active(s: Service, slot: Slot) {
    slot in s.holds && !s.holds[slot].committed
  }

  /** An active reservation holds this delivery. */
  predicate Reserved(s: Service, k: Key) {
    exists slot :: slot in s.holds && Active(s, slot) && slot.key == k
  }

  /** An active reservation holds some delivery of this approval. */
  predicate ReservedApproval(s: Service, id: string) {
    exists slot :: slot in s.holds && Active(s, slot) && slot.key.approvalId == id
  }

  // ---------------------------------------------------- reserve, commit, abort

  datatype Granted = Granted(service: Service, reservation: Reservation)

  /** The local append's checks, then a reservation; the same request finds its own again. */
  function Reserve(s: Service, k: Key, approved: bool): Outcome<Granted> {
    match Outbox.PreYield(s.outbox, k, approved)
    case Some(f) => Raised(f)
    case None =>
      var slot := Slot(k, s.generation);
      Done(Granted(if slot in s.holds then s else s.(holds := s.holds[slot := Hold(approved, false)]),
                   Reservation(k, approved, s.generation)))
  }

  /** Publish what was reserved; a repeat changes nothing. */
  function Commit(s: Service, r: Reservation, now: int): Outcome<Service> {
    if r.generation != s.generation then Raised(Outbox.StaleGeneration)
    else if SlotOf(r) !in s.holds || s.holds[SlotOf(r)].approved != r.approved then Raised(Outbox.ReservationMismatch)
    else if s.holds[SlotOf(r)].committed then Done(s)
    else
      match Outbox.Publish(s.outbox, r.key, now)
      case Refused(f) => Raised(f)
      case Committed(o) => Done(s.(outbox := o, holds := s.holds[SlotOf(r) := Hold(r.approved, true)]))
  }

  datatype Released = Released(service: Service, released: bool)

  /** Let a reservation go; a committed or missing one is left alone. */
  function Abort(s: Service, r: Reservation): Outcome<Released> {
    if SlotOf(r) !in s.holds then Done(Released(s, false))
    else if r.generation != s.generation then Raised(Outbox.StaleGeneration)
    else if s.holds[SlotOf(r)].approved != r.approved then Raised(Outbox.ReservationMismatch)
    else if s.holds[SlotOf(r)].committed then Done(Released(s, false))
    else Done(Released(s.(holds := s.holds - {SlotOf(r)}), true))
  }

  /** A later placement generation takes over and releases what the old one still held. */
  function Replace(s: Service, next: int): Service {
    if next <= s.generation then s
    else s.(generation := next, holds := map slot | slot in s.holds && s.holds[slot].committed :: s.holds[slot])
  }

  /** Whether a reservation keeps this writer out. */
  predicate Blocked(s: Service, op: Outbox.Op) {
    match op
    case OpReconcile(k, _, _) => Reserved(s, k)
    case OpAcknowledge(k, _, _, _, _) => Reserved(s, k)
    case OpFail(k, _, _) => Reserved(s, k)
    case OpQuarantine(k, _, _) => Reserved(s, k)
    case OpFence(id) => ReservedApproval(s, id)
    case OpInsert(_, _, _) => false
    case OpAudit(_, _) => false
    case OpAppend(_, _, _, _) => true
    case OpWindow(_) => false
  }

  /** A store write behind the service; the local append is not one of its operations. */
  function Write(s: Service, op: Outbox.Op): Outcome<Service> {
    if Blocked(s, op) then Raised(Outbox.ReservationActive)
    else
      match Outbox.Perform(s.outbox, op)
      case Refused(f) => Raised(f)
      case Committed(o) => Done(s.(outbox := o))
  }

  /** Cancelling a request queues its denial, unless the approval is reserved. */
  function Terminalize(s: Service, d: Outbox.Delivery, now: int): Outcome<Service> {
    if ReservedApproval(s, d.key.approvalId) then Raised(Outbox.ReservationActive)
    else Write(s, Outbox.OpInsert(d, Denied, now))
  }

  // -------------------------------------------------------------------- runs

  datatype Op =
    | OpReserve(key: Key, approved: bool)
    | OpCommit(reservation: Reservation, now: int)
    | OpAbort(reservation: Reservation)
    | OpReplace(next: int)
    | OpWrite(op: Outbox.Op)
    | OpTerminalize(delivery: Outbox.Delivery, now: int)

  function After(s: Service, o: Outcome<Service>): Service {
    match o { case Done(s') => s' case Raised(_) => s }
  }

  function Step(s: Service, op: Op): Service {
    match op
    case OpReserve(k, approved) => (match Reserve(s, k, approved) case Done(g) => g.service case Raised(_) => s)
    case OpCommit(r, now) => After(s, Commit(s, r, now))
    case OpAbort(r) => (match Abort(s, r) case Done(x) => x.service case Raised(_) => s)
    case OpReplace(next) => Replace(s, next)
    case OpWrite(w) => After(s, Write(s, w))
    case OpTerminalize(d, now) => After(s, Terminalize(s, d, now))
  }

  const EMPTY_SERVICE := Service(Outbox.EMPTY_OUTBOX, map[], 0)

  function Run(ops: seq<Op>): Service {
    if ops == [] then EMPTY_SERVICE else Step(Run(ops[..|ops| - 1]), ops[|ops| - 1])
  }

  // --------------------------------------------------------------- invariant

  /** An active reservation's delivery is pending, audited and unfenced; a committed one's is out. */
  predicate HoldOk(s: Service, slot: Slot) {
    slot in s.holds ==>
      if s.holds[slot].committed then
        slot.key in s.outbox.rows && Runs.Out(s.outbox.rows[slot.key].state)
        && s.outbox.rows[slot.key].approved == s.holds[slot].approved
      else
        slot.generation == s.generation && Outbox.PreYield(s.outbox, slot.key, s.holds[slot].approved).None?
  }

  ghost predicate Inv(s: Service) {
    Runs.Inv(s.outbox) && forall slot :: HoldOk(s, slot)
  }

  /** A row that no writer aimed at is the row it was. */
  lemma UntouchedRow(o: Outbox.Outbox, op: Outbox.Op, k: Key)
    requires Runs.Inv(o) && k in o.rows
    requires op.OpInsert? || op.OpFence? || op.OpWindow? || op.key != k || (op.OpAudit? && o.rows[k].auditReady)
    ensures var o' := Outbox.After(o, Outbox.Perform(o, op));
            k in o'.rows && o'.rows[k] == o.rows[k]
  {
    if op.OpInsert? {
      assert k.approvalId == op.delivery.key.approvalId ==> Outbox.SameApproval(o, op.delivery.key.approvalId);
    } else if !op.OpFence? && !op.OpWindow? {
      assert Runs.RowOk(o, op.key);
    }
  }

  lemma UntouchedFences(o: Outbox.Outbox, op: Outbox.Op)
    ensures var o' := Outbox.After(o, Outbox.Perform(o, op));
            o'.fences == o.fences + if op.OpFence? then {op.id} else {}
  {
  }

  lemma WriteKeepsHold(s: Service, op: Outbox.Op, slot: Slot)
    requires Inv(s) && !Blocked(s, op) && slot in s.holds
    ensures HoldOk(s.(outbox := Outbox.After(s.outbox, Outbox.Perform(s.outbox, op))), slot)
  {
    assert HoldOk(s, slot);
    var o' := Outbox.After(s.outbox, Outbox.Perform(s.outbox, op));
    if s.holds[slot].committed {
      Runs.StepGood(s.outbox, op);
      hide Outbox.Perform;
      assert Runs.RowEvolves(s.outbox.rows[slot.key], o'.rows[slot.key]);
    } else {
      assert Active(s, slot);
      UntouchedRow(s.outbox, op, slot.key);
      UntouchedFences(s.outbox, op);
      hide Outbox.Perform;
    }
  }

  lemma WriteKeeps(s: Service, op: Outbox.Op)
    requires Inv(s)
    ensures Inv(After(s, Write(s, op)))
  {
    if !Blocked(s, op) {
      var s' := s.(outbox := Outbox.After(s.outbox, Outbox.Perform(s.outbox, op)));
      assert After(s, Write(s, op)) == s';
      Runs.StepGood(s.outbox, op);
      hide Outbox.Perform;
      hide Blocked;
      forall slot
        ensures HoldOk(s', slot)
      {
        if slot in s.holds {
          WriteKeepsHold(s, op, slot);
        }
      }
    }
  }

  /** Commit of an active reservation passes the local append's checks, so it is that append. */
  lemma CommitIsAppend(s: Service, r: Reservation, now: int)
    requires Inv(s) && r.generation == s.generation && Active(s, SlotOf(r)) && s.holds[SlotOf(r)].approved == r.approved
    ensures Outbox.Publish(s.outbox, r.key, now) == Outbox.Append(s.outbox, r.key, r.approved, true, now)
    ensures Commit(s, r, now) != Raised(Outbox.CasFailed)
    ensures Commit(s, r, now).Raised? <==> Outbox.Tick(s.outbox, now).Refused?
    ensures Commit(s, r, now).Done? ==>
              var o' := Commit(s, r, now).value.outbox;
              && r.key in s.outbox.rows && r.key in o'.rows
              && o'.rows[r.key].state.Published? && s.outbox.rows[r.key].state.Pending?
              && o'.rows[r.key].attempts == s.outbox.rows[r.key].attempts + 1
  {
    assert HoldOk(s, SlotOf(r));
    assert Runs.RowOk(s.outbox, r.key);
  }

  lemma CommitKeeps(s: Service, r: Reservation, now: int)
    requires Inv(s)
    ensures Inv(After(s, Commit(s, r, now)))
  {
    var o := Commit(s, r, now);
    if o.Done? && o.value != s {
      CommitIsAppend(s, r, now);
      var op := Outbox.OpAppend(r.key, r.approved, true, now);
      assert o.value.outbox == Outbox.After(s.outbox, Outbox.Perform(s.outbox, op));
      Runs.StepGood(s.outbox, op);
      forall slot
        ensures HoldOk(o.value, slot)
      {
        if slot in s.holds && slot != SlotOf(r) {
          assert HoldOk(s, slot);
          assert HoldOk(s, SlotOf(r));
          CommitKeepsOther(s, r, now, slot);
        }
      }
    }
  }

  lemma CommitKeepsOther(s: Service, r: Reservation, now: int, slot: Slot)
    requires Inv(s) && r.generation == s.generation && Active(s, SlotOf(r)) && s.holds[SlotOf(r)].approved == r.approved
    requires Commit(s, r, now).Done? && slot in s.holds && slot != SlotOf(r)
    ensures HoldOk(Commit(s, r, now).value, slot)
  {
    assert HoldOk(s, slot) && HoldOk(s, SlotOf(r));
    assert Runs.RowOk(s.outbox, r.key);
  }

  lemma ReserveKeeps(s: Service, k: Key, approved: bool)
    requires Inv(s)
    ensures Inv(Step(s, OpReserve(k, approved)))
  {
    var s' := Step(s, OpReserve(k, approved));
    forall slot
      ensures HoldOk(s', slot)
    {
      assert HoldOk(s, slot);
    }
  }

  lemma ReleaseKeeps(s: Service, s': Service)
    requires Inv(s) && s'.outbox == s.outbox
    requires forall slot :: slot in s'.holds ==> slot in s.holds && s'.holds[slot] == s.holds[slot]
    requires s'.generation == s.generation || forall slot :: slot in s'.holds ==> s'.holds[slot].committed
    ensures Inv(s')
  {
    forall slot
      ensures HoldOk(s', slot)
    {
      assert HoldOk(s, slot);
    }
  }

  lemma StepKeeps(s: Service, op: Op)
    requires Inv(s)
    ensures Inv(Step(s, op))
  {
    match op {
      case OpReserve(k, approved) => ReserveKeeps(s, k, approved);
      case OpCommit(r, now) => CommitKeeps(s, r, now);
      case OpAbort(r) => ReleaseKeeps(s, Step(s, op));
      case OpReplace(next) => ReleaseKeeps(s, Step(s, op));
      case OpWrite(w) => WriteKeeps(s, w);
      case OpTerminalize(d, now) => WriteKeeps(s, Outbox.OpInsert(d, Denied, now));
    }
  }

  lemma {:induction false} RunKeeps(ops: seq<Op>)
    ensures Inv(Run(ops))
  {
    if ops == [] {
    } else {
      hide Step;
      RunKeeps(ops[..|ops| - 1]);
      StepKeeps(Run(ops[..|ops| - 1]), ops[|ops| - 1]);
    }
  }

  // -------------------------------------------------------------- refinement

  /** The transactions of the local store that a service step stands for. */
  function Local(s: Service, op: Op): seq<Outbox.Op> {
    match op
    case OpCommit(r, now) =>
      if r.generation == s.generation && Active(s, SlotOf(r)) && s.holds[SlotOf(r)].approved == r.approved
      then [Outbox.OpAppend(r.key, r.approved, true, now)] else []
    case OpWrite(w) => if Blocked(s, w) then [] else [w]
    case OpTerminalize(d, now) => if ReservedApproval(s, d.key.approvalId) then []
                                  else [Outbox.OpInsert(d, Denied, now)]
    case OpReserve(_, _) => []
    case OpAbort(_) => []
    case OpReplace(_) => []
  }

  function LocalRun(ops: seq<Op>): seq<Outbox.Op> {
    if ops == [] then []
    else LocalRun(ops[..|ops| - 1]) + Local(Run(ops[..|ops| - 1]), ops[|ops| - 1])
  }

  lemma StepRefines(s: Service, op: Op)
    requires Inv(s)
    ensures var local := Local(s, op);
            && |local| <= 1
            && Step(s, op).outbox == if local == [] then s.outbox
               else Outbox.After(s.outbox, Outbox.Perform(s.outbox, local[0]))
  {
    if op.OpCommit? && Local(s, op) != [] {
      hide Outbox.Publish;
      hide Outbox.Append;
      CommitIsAppend(s, op.reservation, op.now);
    } else if op.OpWrite? || op.OpTerminalize? {
      hide Outbox.Perform;
    }
  }

  /** Split-phase publication refines the local store: every run of reserves, commits,
      aborts, replacements and interleaved writers leaves exactly the tables of a local
      run in which each first commit is one atomic append. */
  lemma {:induction false} RemoteRefinesLocal(ops: seq<Op>)
    ensures Run(ops).outbox == Outbox.Run(LocalRun(ops))
  {
    if ops == [] {
    } else {
      var before, last := ops[..|ops| - 1], ops[|ops| - 1];
      RemoteRefinesLocal(before);
      RunKeeps(before);
      StepRefines(Run(before), last);
      var local := Local(Run(before), last);
      hide Step;
      hide Local;
      hide Outbox.Perform;
      if local == [] {
        assert LocalRun(ops) == LocalRun(before);
      } else {
        assert local == [local[0]];
        assert LocalRun(ops)[..|LocalRun(ops)| - 1] == LocalRun(before);
      }
    }
  }

  lemma {:induction false} LocalRunExtends(ops: seq<Op>, i: nat)
    requires i <= |ops|
    ensures LocalRun(ops[..i]) <= LocalRun(ops)
    decreases |ops|
  {
    if i == |ops| {
      assert ops[..i] == ops;
    } else {
      var before := ops[..|ops| - 1];
      LocalRunExtends(before, i);
      assert before[..i] == ops[..i];
    }
  }

  /** Between any two points of a remote run the tables evolve as local runs do. */
  lemma RunEvolves(ops: seq<Op>, i: nat, j: nat)
    requires i <= j <= |ops|
    ensures Runs.Evolves(Run(ops[..i]).outbox, Run(ops[..j]).outbox)
  {
    hide Run;
    hide Runs.Evolves;
    assert ops[..j][..i] == ops[..i];
    LocalRunExtends(ops[..j], i);
    var local := LocalRun(ops[..j]);
    var n := |LocalRun(ops[..i])|;
    RemoteRefinesLocal(ops[..i]);
    RemoteRefinesLocal(ops[..j]);
    Runs.RunEvolves(local, n, |local|);
    assert local[..n] == LocalRun(ops[..i]) && local[..|local|] == local;
  }

  // ---------------------------------------------------------------- theorems

  /** While a reservation is active its row stays pending, audited and unfenced, so a commit
      can be refused only by a clock that went back. */
  lemma ActiveReservationHolds(ops: seq<Op>, slot: Slot, now: int)
    requires Active(Run(ops), slot)
    ensures var s := Run(ops); var approved := s.holds[slot].approved;
            && slot.generation == s.generation
            && slot.key in s.outbox.rows
            && var r := s.outbox.rows[slot.key];
               && r.state.Pending? && r.auditReady && r.approved == approved
               && !(approved && slot.key.approvalId in s.outbox.fences)
               && (Commit(s, Reservation(slot.key, approved, slot.generation), now).Raised? <==>
                     Outbox.Tick(s.outbox, now).Refused?)
  {
    RunKeeps(ops);
    var s := Run(ops);
    hide Run;
    assert HoldOk(s, slot);
    var r := Reservation(slot.key, s.holds[slot].approved, slot.generation);
    assert SlotOf(r) == slot;
    CommitIsAppend(s, r, now);
  }

  /** The i-th step of the run published this delivery. */
  predicate PublishedAt(ops: seq<Op>, i: nat, k: Key) {
    && i < |ops|
    && k in Run(ops[..i]).outbox.rows && Run(ops[..i]).outbox.rows[k].state.Pending?
    && k in Run(ops[..i + 1]).outbox.rows && Run(ops[..i + 1]).outbox.rows[k].state.Published?
  }

  /** A delivery is published at most once, whatever is retried, aborted or interleaved. */
  lemma PublishedAtMostOnce(ops: seq<Op>, i: nat, j: nat, k: Key)
    requires i < j && PublishedAt(ops, i, k)
    ensures !PublishedAt(ops, j, k)
  {
    hide Run;
    if j < |ops| {
      RunEvolves(ops, i + 1, j);
      assert Runs.RowEvolves(Run(ops[..i + 1]).outbox.rows[k], Run(ops[..j]).outbox.rows[k]);
    }
  }

  /** A published delivery was counted exactly once beside its recorded failures. */
  lemma OnePublishIncrement(ops: seq<Op>, k: Key)
    requires k in Run(ops).outbox.rows
    ensures Run(ops).outbox.rows[k].attempts ==
            Runs.Failures(LocalRun(ops), k) + (if Run(ops).outbox.rows[k].state.Pending? then 0 else 1)
  {
    hide Run;
    RemoteRefinesLocal(ops);
    Runs.AttemptsCountFailures(LocalRun(ops), k);
  }

  /** Once fenced, an approved delivery goes out on no path. */
  lemma NoPublishAfterFence(ops: seq<Op>, i: nat, j: nat, k: Key)
    requires i <= j <= |ops| && k.approvalId in Run(ops[..i]).outbox.fences
    requires k in Run(ops[..j]).outbox.rows && Run(ops[..j]).outbox.rows[k].approved
    requires Runs.Out(Run(ops[..j]).outbox.rows[k].state)
    ensures k in Run(ops[..i]).outbox.rows && Runs.Out(Run(ops[..i]).outbox.rows[k].state)
  {
    hide Run;
    RunEvolves(ops, i, j);
    assert Runs.FenceHeld(Run(ops[..i]).outbox, Run(ops[..j]).outbox, k);
  }

  /** Retries: a lost reserve reply finds its own reservation, a lost commit reply finds the
      row published and counts nothing, an abort after commit reverses nothing, and a commit
      after abort is refused. */
  lemma RetriesAreSafe(s: Service, r: Reservation, now: int, later: int)
    requires Inv(s) && r.generation == s.generation && Active(s, SlotOf(r)) && s.holds[SlotOf(r)].approved == r.approved
    ensures Reserve(s, r.key, r.approved) == Done(Granted(s, r))
    ensures Commit(s, r, now).Done? ==>
              var s' := Commit(s, r, now).value;
              Commit(s', r, later) == Done(s') && Abort(s', r) == Done(Released(s', false))
    ensures var s' := s.(holds := s.holds - {SlotOf(r)});
            && Abort(s, r) == Done(Released(s', true))
            && Abort(s', r) == Done(Released(s', false))
            && Commit(s', r, later) == Raised(Outbox.ReservationMismatch)
            && s'.outbox == s.outbox
  {
    assert HoldOk(s, SlotOf(r));
  }

  /** Exactly what releases an active reservation, whoever lost which reply: a commit of it
      under a clock that did not go back, an abort of it, or a later generation. A client that
      asks again is handed the same reservation, so it can always do one of the first two. */
  lemma ReleasedExactly(s: Service, slot: Slot, op: Op)
    requires Inv(s) && Active(s, slot)
    ensures var r := Reservation(slot.key, s.holds[slot].approved, slot.generation);
            && Reserve(s, slot.key, r.approved) == Done(Granted(s, r))
            && (!Active(Step(s, op), slot) <==>
                  || (op.OpCommit? && op.reservation == r && Outbox.Tick(s.outbox, op.now).Committed?)
                  || (op.OpAbort? && op.reservation == r)
                  || (op.OpReplace? && op.next > s.generation))
  {
    var r := Reservation(slot.key, s.holds[slot].approved, slot.generation);
    assert SlotOf(r) == slot;
    assert HoldOk(s, slot);
    RetriesAreSafe(s, r, 0, 0);
    if op.OpCommit? && SlotOf(op.reservation) == slot && op.reservation.approved == r.approved {
      assert op.reservation == r;
      CommitIsAppend(s, r, op.now);
    }
    hide Outbox.Publish;
    hide Outbox.Perform;
    hide Outbox.PreYield;
  }

  /** In any reachable service a reservation is handed out if and only if the row stands audited
      and pending with this decision and is not an approval that was fenced; it is then active,
      for this row and generation, and nothing else changed. */
  lemma ReserveIff(ops: seq<Op>, k: Key, approved: bool)
    ensures var s := Run(ops); var o := Reserve(s, k, approved); var slot := Slot(k, s.generation);
            && (o.Done? <==>
                  && k in s.outbox.rows && s.outbox.rows[k].approved == approved && s.outbox.rows[k].auditReady
                  && s.outbox.rows[k].state.Pending? && !(approved && k.approvalId in s.outbox.fences))
            && (o.Done? ==>
                  o.value == Granted(s.(holds := s.holds[slot := Hold(approved, false)]),
                                     Reservation(k, approved, s.generation)))
  {
    RunKeeps(ops);
    hide Run;
    var s, slot := Run(ops), Slot(k, Run(ops).generation);
    assert HoldOk(s, slot);
    if slot in s.holds && Reserve(s, k, approved).Done? {
      assert s.holds[slot] == Hold(approved, false);
      assert s.holds[slot := Hold(approved, false)] == s.holds;
    }
  }

  lemma TwoSteps(ops: seq<Op>, a: Op, b: Op)
    ensures Run(ops + [a]) == Step(Run(ops), a) && Run(ops + [a, b]) == Step(Step(Run(ops), a), b)
  {
    hide Step;
    assert (ops + [a])[..|ops|] == ops;
    assert (ops + [a, b])[..|ops| + 1] == ops + [a];
  }

  /** From every reachable service a delivery that stands audited and pending, and is not an
      approval that was fenced, goes out by one reserve and one commit under any clock that goes
      on; so a fence never stops a denial. */
  lemma CanBePublished(ops: seq<Op>, k: Key, now: int)
    requires var s := Run(ops).outbox;
             && k in s.rows && s.rows[k].state.Pending? && s.rows[k].auditReady
             && !(s.rows[k].approved && k.approvalId in s.fences)
             && now > 0 && (s.clock.None? || s.clock.value <= now)
    ensures var s := Run(ops); var approved := s.outbox.rows[k].approved;
            var o := Run(ops + [OpReserve(k, approved), OpCommit(Reservation(k, approved, s.generation), now)]).outbox;
            k in o.rows && o.rows[k].state.Published?
  {
    var s := Run(ops);
    var approved := s.outbox.rows[k].approved;
    var r := Reservation(k, approved, s.generation);
    TwoSteps(ops, OpReserve(k, approved), OpCommit(r, now));
    ReserveIff(ops, k, approved);
    RunKeeps(ops + [OpReserve(k, approved)]);
    hide Run;
    hide Reserve;
    var held := Step(s, OpReserve(k, approved));
    CommitIsAppend(held, r, now);
    hide Outbox.Publish;
    hide Outbox.Append;
  }

  /** A reservation this store write must wait for. */
  predicate Awaits(op: Outbox.Op, k: Key) {
    match op
    case OpReconcile(key, _, _) => key == k
    case OpAcknowledge(key, _, _, _, _) => key == k
    case OpFail(key, _, _) => key == k
    case OpQuarantine(key, _, _) => key == k
    case OpFence(id) => k.approvalId == id
    case _ => false
  }

  /** A store write behind the service is the store's own write unless an active reservation of
      the row, or for a fence of the approval, makes it wait. */
  lemma WriteIff(s: Service, op: Outbox.Op)
    requires !op.OpAppend?
    ensures if exists slot :: Active(s, slot) && Awaits(op, slot.key)
            then Write(s, op) == Raised(Outbox.ReservationActive)
            else Write(s, op) == match Outbox.Perform(s.outbox, op)
                                 case Refused(f) => Raised(f)
                                 case Committed(o) => Done(s.(outbox := o))
  {
    hide Outbox.Perform;
    assert Blocked(s, op) <==> exists slot :: Active(s, slot) && Awaits(op, slot.key) by {
      if slot :| Active(s, slot) && Awaits(op, slot.key) {
        assert slot in s.holds && Active(s, slot);
      }
    }
  }
}
