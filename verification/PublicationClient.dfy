/** The two objects of split-phase publication: the service that keeps reservations in
    front of the store, and the client that reserves on entry and commits or aborts on exit. */
module PublicationClient {
  import opened Json
  import opened ApprovalPolicy
  import opened DeliveryStore
  import Outbox = DeliveryOutbox
  import Runs = OutboxRuns
  import P = Publication

  class Service {
    const store: Store
    var holds: map<P.Slot, P.Hold>
    var generation: int

    ghost function State(): P.Service
      reads this, store
    {
      P.Service(store.State(), holds, generation)
    }

    ghost predicate Valid()
      reads this, store
    {
      P.Inv(State())
    }

    ghost predicate Ends(o: P.Outcome<P.Service>, before: P.Service, fault: Option<Outbox.Fault>)
      reads this, store
    {
      match o
      case Done(s) => State() == s && fault == None
      case Raised(f) => State() == before && fault == Some(f)
    }

    constructor ()
      ensures Valid() && State() == P.EMPTY_SERVICE && fresh(store)
    {
      store := new Store();
      holds := map[];
      generation := 0;
    }

    predicate IsReserved(k: P.Key)
      reads this
    {
      exists slot :: slot in holds && slot.key == k && !holds[slot].committed
    }

    predicate IsReservedApproval(id: string)
      reads this
    {
      exists slot :: slot in holds && slot.key.approvalId == id && !holds[slot].committed
    }

    lemma ReservedAgree(k: P.Key)
      ensures IsReserved(k) <==> P.Reserved(State(), k)
      ensures IsReservedApproval(k.approvalId) <==> P.ReservedApproval(State(), k.approvalId)
    {
      assert forall slot :: slot in holds ==> (P.Active(State(), slot) <==> !holds[slot].committed);
    }

    method Reserve(k: P.Key, approved: bool) returns (reservation: Option<P.Reservation>, fault: Option<Outbox.Fault>)
      requires Valid()
      modifies this
      ensures Valid()
      ensures match P.Reserve(old(State()), k, approved)
              case Done(g) => State() == g.service && reservation == Some(g.reservation) && fault == None
              case Raised(f) => State() == old(State()) && reservation == None && fault == Some(f)
    {
      P.ReserveKeeps(State(), k, approved);
      fault := store.CheckBeforeAppend(k, approved);
      if fault.Some? {
        return None, fault;
      }
      var slot := P.Slot(k, generation);
      if slot !in holds {
        holds := holds[slot := P.Hold(approved, false)];
      }
      return Some(P.Reservation(k, approved, generation)), None;
    }

    method Commit(r: P.Reservation, now: int) returns (fault: Option<Outbox.Fault>)
      requires Valid()
      modifies this, store
      ensures Valid() && Ends(P.Commit(old(State()), r, now), old(State()), fault)
    {
      P.CommitKeeps(State(), r, now);
      hide P.Inv;
      hide Outbox.Publish;
      if r.generation != generation {
        return Some(Outbox.StaleGeneration);
      }
      var slot := P.Slot(r.key, r.generation);
      if slot !in holds || holds[slot].approved != r.approved {
        return Some(Outbox.ReservationMismatch);
      }
      if holds[slot].committed {
        return None;
      }
      fault := store.PublishRow(r.key, now);
      if fault.None? {
        holds := holds[slot := P.Hold(r.approved, true)];
      }
    }

    method Abort(r: P.Reservation) returns (released: bool, fault: Option<Outbox.Fault>)
      requires Valid()
      modifies this
      ensures Valid()
      ensures match P.Abort(old(State()), r)
              case Done(x) => State() == x.service && released == x.released && fault == None
              case Raised(f) => State() == old(State()) && !released && fault == Some(f)
    {
      P.StepKeeps(State(), P.OpAbort(r));
      hide P.Inv;
      var slot := P.Slot(r.key, r.generation);
      if slot !in holds {
        return false, None;
      }
      if r.generation != generation {
        return false, Some(Outbox.StaleGeneration);
      }
      if holds[slot].approved != r.approved {
        return false, Some(Outbox.ReservationMismatch);
      }
      if holds[slot].committed {
        return false, None;
      }
      holds := holds - {slot};
      return true, None;
    }

    /** A stopped or replaced placement releases what it still held. */
    method Replace(next: int)
      requires Valid()
      modifies this
      ensures Valid() && State() == P.Replace(old(State()), next)
    {
      P.StepKeeps(State(), P.OpReplace(next));
      hide P.Inv;
      if next > generation {
        generation := next;
        holds := map slot | slot in holds && holds[slot].committed :: holds[slot];
      }
    }

    method Acknowledge(k: P.Key, address: Outbox.Address, approved: bool, decidedAt: int, now: int)
      returns (fault: Option<Outbox.Fault>)
      requires Valid()
      modifies store
      ensures Valid()
      ensures Ends(P.Write(old(State()), Outbox.OpAcknowledge(k, address, approved, decidedAt, now)), old(State()),
                   fault)
    {
      P.WriteKeeps(State(), Outbox.OpAcknowledge(k, address, approved, decidedAt, now));
      ReservedAgree(k);
      if IsReserved(k) {
        return Some(Outbox.ReservationActive);
      }
      hide Outbox.Acknowledge;
      fault := store.AcknowledgeDelivery(k, address, approved, decidedAt, now);
    }

    method RecordFailure(k: P.Key, error: string, now: int) returns (fault: Option<Outbox.Fault>)
      requires Valid()
      modifies store
      ensures Valid() && Ends(P.Write(old(State()), Outbox.OpFail(k, error, now)), old(State()), fault)
    {
      P.WriteKeeps(State(), Outbox.OpFail(k, error, now));
      ReservedAgree(k);
      if IsReserved(k) {
        return Some(Outbox.ReservationActive);
      }
      hide Outbox.Fail;
      fault := store.RecordFailure(k, error, now);
    }

    method Quarantine(k: P.Key, error: string, now: int) returns (fault: Option<Outbox.Fault>)
      requires Valid()
      modifies store
      ensures Valid() && Ends(P.Write(old(State()), Outbox.OpQuarantine(k, error, now)), old(State()), fault)
    {
      P.WriteKeeps(State(), Outbox.OpQuarantine(k, error, now));
      ReservedAgree(k);
      if IsReserved(k) {
        return Some(Outbox.ReservationActive);
      }
      hide Outbox.Quarantine;
      fault := store.QuarantineDelivery(k, error, now);
    }

    /** Reconcile waits while the delivery is reserved; a wait that ends without a release writes nothing. */
    method Reconcile(k: P.Key, approved: bool, now: int) returns (fault: Option<Outbox.Fault>)
      requires Valid()
      modifies store
      ensures Valid() && Ends(P.Write(old(State()), Outbox.OpReconcile(k, approved, now)), old(State()), fault)
    {
      P.WriteKeeps(State(), Outbox.OpReconcile(k, approved, now));
      ReservedAgree(k);
      if IsReserved(k) {
        return Some(Outbox.ReservationActive);
      }
      hide Outbox.Reconcile;
      fault := store.ReconcileDuplicate(k, approved, now);
    }

    method Fence(id: string) returns (fault: Option<Outbox.Fault>)
      requires Valid()
      modifies store
      ensures Valid() && Ends(P.Write(old(State()), Outbox.OpFence(id)), old(State()), fault)
    {
      P.WriteKeeps(State(), Outbox.OpFence(id));
      ReservedAgree(Outbox.Key(id, "", ""));
      if IsReservedApproval(id) {
        return Some(Outbox.ReservationActive);
      }
      store.FenceDelivery(id);
      return None;
    }

    method Terminalize(d: Outbox.Delivery, now: int) returns (fault: Option<Outbox.Fault>)
      requires Valid()
      modifies store
      ensures Valid() && Ends(P.Terminalize(old(State()), d, now), old(State()), fault)
    {
      P.WriteKeeps(State(), Outbox.OpInsert(d, Denied, now));
      ReservedAgree(d.key);
      if IsReservedApproval(d.key.approvalId) {
        return Some(Outbox.ReservationActive);
      }
      hide Outbox.Insert;
      fault := store.InsertDelivery(d, Denied, now);
    }
  }

  /** What the network does to a call: the request may not arrive, the reply may be lost. */
  datatype Wire = Wire(arrives: bool, replies: bool)

  /** The client's append context: reserve, run the body, then commit or abort. */
  class AppendPublication {
    const service: Service
    const key: P.Key
    const approved: bool
    var reservation: Option<P.Reservation>

    constructor (service: Service, key: P.Key, approved: bool)
      ensures this.service == service && this.key == key && this.approved == approved && reservation == None
    {
      this.service, this.key, this.approved := service, key, approved;
      reservation := None;
    }

    /** The reservation the client holds is for its own row, whose decision never changes. */
    ghost predicate Holding()
      reads this, service, service.store
    {
      reservation.Some? ==>
        && reservation.value.key == key && reservation.value.approved == approved
        && key in service.store.rows && service.store.rows[key].approved == approved
    }

    predicate Pinned()
      reads this, service
    {
      reservation.Some? && P.SlotOf(reservation.value) in service.holds
      && !service.holds[P.SlotOf(reservation.value)].committed
    }

    /** Enter the context. The client holds a reservation for its own row, or it raises; a
        reply lost after the reserve arrived leaves a reservation the client does not know of. */
    method Enter(wire: Wire) returns (raised: bool)
      requires service.Valid() && reservation == None
      modifies this, service
      ensures service.Valid() && Holding()
      ensures raised <==> reservation.None?
      ensures match P.Reserve(old(service.State()), key, approved)
              case Done(g) =>
                && service.State() == (if wire.arrives then g.service else old(service.State()))
                && reservation == (if wire.arrives && wire.replies then Some(g.reservation) else None)
              case Raised(_) => service.State() == old(service.State()) && reservation == None
      ensures var slot := P.Slot(key, service.generation);
              P.Active(service.State(), slot) <==>
                || old(P.Active(service.State(), P.Slot(key, service.generation)))
                || (wire.arrives && P.Reserve(old(service.State()), key, approved).Done?)
    {
      ReserveHolds(service.State(), key, approved);
      if wire.arrives {
        var granted, fault := service.Reserve(key, approved);
        if wire.replies {
          reservation := granted;
        }
      }
      raised := reservation.None?;
    }

    /** Leave the context. A clean exit means the delivery is out; a failed body publishes
        nothing; and the reservation stays pinned exactly when it was, no abort arrives, and
        no commit arrived that the clock allowed. */
    method Exit(failed: bool, now: int, commitWire: Wire, abortWire: Wire) returns (raised: bool)
      requires service.Valid() && Holding()
      modifies service, service.store
      ensures service.Valid()
      ensures failed && reservation.Some? ==> raised && service.store.State() == old(service.store.State())
      ensures !raised && reservation.Some? ==>
                key in service.store.rows && Runs.Out(service.store.rows[key].state)
      ensures reservation.None? ==> service.State() == old(service.State()) && !raised
      ensures raised && !commitWire.arrives ==> service.store.State() == old(service.store.State())
      ensures reservation.Some? ==>
                (Pinned() <==> old(Pinned()) && !(raised && abortWire.arrives)
                               && (failed || !commitWire.arrives
                                   || Outbox.Tick(old(service.store.State()), now).Refused?))
    {
      if reservation.None? {
        return false;
      }
      raised := failed;
      if !failed {
        raised := CommitOver(now, commitWire);
      }
      if raised {
        AbortOver(abortWire);
      }
    }

    method CommitOver(now: int, wire: Wire) returns (raised: bool)
      requires service.Valid() && Holding() && reservation.Some?
      modifies service, service.store
      ensures service.Valid() && Holding()
      ensures !raised ==> key in service.store.rows && Runs.Out(service.store.rows[key].state)
      ensures !wire.arrives ==> raised && service.State() == old(service.State())
      ensures Pinned() <==> old(Pinned()) && (!wire.arrives || Outbox.Tick(old(service.store.State()), now).Refused?)
    {
      raised := true;
      if wire.arrives {
        ghost var s := service.State();
        CommitUnpins(s, reservation.value, now);
        var fault := service.Commit(reservation.value, now);
        CommitPublishes(s, reservation.value, now);
        raised := fault.Some? || !wire.replies;
      }
    }

    method AbortOver(wire: Wire)
      requires service.Valid() && Holding() && reservation.Some?
      modifies service
      ensures service.Valid()
      ensures Pinned() <==> old(Pinned()) && !wire.arrives
    {
      if wire.arrives {
        AbortReleases(service.State(), reservation.value);
        var released, fault := service.Abort(reservation.value);
      }
    }
  }

  lemma CommitUnpins(s: P.Service, r: P.Reservation, now: int)
    requires P.Inv(s) && r.key in s.outbox.rows && s.outbox.rows[r.key].approved == r.approved
    ensures P.Active(P.After(s, P.Commit(s, r, now)), P.SlotOf(r)) <==>
              P.Active(s, P.SlotOf(r)) && Outbox.Tick(s.outbox, now).Refused?
  {
    assert P.HoldOk(s, P.SlotOf(r));
    if P.Active(s, P.SlotOf(r)) {
      P.CommitIsAppend(s, r, now);
    }
  }

  /** A granted reserve holds its slot, and leaves every other slot as it was. */
  lemma ReserveHolds(s: P.Service, k: P.Key, approved: bool)
    requires P.Inv(s)
    ensures match P.Reserve(s, k, approved)
            case Done(g) =>
              && P.Active(g.service, P.Slot(k, s.generation))
              && k in s.outbox.rows && s.outbox.rows[k].approved == approved
            case Raised(_) => true
  {
    assert P.HoldOk(s, P.Slot(k, s.generation));
  }

  /** A commit that succeeds leaves the delivery out, and no commit changes a decision. */
  lemma CommitPublishes(s: P.Service, r: P.Reservation, now: int)
    requires P.Inv(s) && r.key in s.outbox.rows && s.outbox.rows[r.key].approved == r.approved
    ensures var s' := P.After(s, P.Commit(s, r, now));
            && r.key in s'.outbox.rows && s'.outbox.rows[r.key].approved == r.approved
            && (P.Commit(s, r, now).Done? ==> Runs.Out(s'.outbox.rows[r.key].state))
  {
    assert P.HoldOk(s, P.SlotOf(r));
    assert Runs.RowOk(s.outbox, r.key);
  }

  /** An abort that arrives releases the reservation: nothing can make it mismatch. */
  lemma AbortReleases(s: P.Service, r: P.Reservation)
    requires P.Inv(s) && r.key in s.outbox.rows && s.outbox.rows[r.key].approved == r.approved
    ensures var s' := P.Step(s, P.OpAbort(r));
            !P.Active(s', P.SlotOf(r)) && s'.outbox == s.outbox
  {
    assert P.HoldOk(s, P.SlotOf(r));
  }
}
