// The handlers in the form they are written in: sequential guards and statements on a
// connection whose tables they change. Each runs exactly the statements of its script in
// Scripts, up to the one the driver fails at if it fails, and to the end is the atomic step
// of Booking.
module Handlers {
  import opened Common
  import opened Calendar
  import opened Store
  import opened Booking
  import opened Scripts
  import Phone

  /** A value or an error; :- is the handlers' "if err != nil, return err". */
  datatype Answer<+T> = Ok(value: T) | Err(error: Error) {
    predicate IsFailure() { Err? }
    function PropagateFailure<U>(): Answer<U> requires Err? { Err(error) }
    function Extract(): T requires Ok? { value }
  }

  /** A callback's error, and the tables it leaves when it has none, are the step's. On an
      error the tables do not matter: they are rolled back. */
  predicate Answers(r: Answer<()>, t: Tables, o: Outcome)
  {
    match o case Done(n) => r.Ok? && t == n case Refused(e) => r == Err(e)
  }

  ghost predicate Asks(p: Script, st: Stmt)
  {
    (p.Do? || p.Then?) && p.st == st
  }

  ghost function Resumed(p: Script, r: Reply): Script
    requires p.Do? || p.Then?
  {
    if p.Do? then p.next(r) else p.rest
  }

  /** The end of a script that answers as the callback did. */
  ghost predicate Settles(p: Script, r: Answer<()>)
  {
    if r.Ok? then p.Finish? else p == Fail(r.error)
  }

  lemma {:induction false} DedupIsPrefix(ids: seq<int>, n: nat)
    requires n <= |ids|
    ensures Dedup(ids[..n]) <= Dedup(ids)
    decreases |ids| - n
  {
    if n < |ids| {
      assert ids[..n + 1][..n] == ids[..n];
      DedupIsPrefix(ids, n + 1);
    } else {
      assert ids[..n] == ids;
    }
  }

  /** The inserts still to come when the loop is at n. */
  ghost function NotesLeft(ids: seq<int>, n: nat, kind: Kind, reservation: int): Script
    requires n <= |ids|
  {
    DedupIsPrefix(ids, n);
    Notify(Dedup(ids)[|Dedup(ids[..n])|..], kind, reservation)
  }

  /** A recipient met for the first time is the next one to insert, and no other. */
  lemma NextRecipient(ids: seq<int>, n: nat, kind: Kind, reservation: int)
    requires n < |ids|
    ensures NotesLeft(ids, n, kind, reservation)
         == if ids[n] in ids[..n] then NotesLeft(ids, n + 1, kind, reservation)
            else Then(InsertNote(Note(ids[n], kind, reservation)), NotesLeft(ids, n + 1, kind, reservation))
  {
    assert ids[..n + 1][..n] == ids[..n];
    DedupIsPrefix(ids, n + 1);
    var done, all := Dedup(ids[..n]), Dedup(ids);
    if ids[n] !in ids[..n] {
      assert all[|done|] == ids[n] && all[|done|..][1..] == all[|done| + 1..];
    }
  }

  lemma NextNote(notes: seq<Note>, ids: seq<int>, n: nat, kind: Kind, reservation: int)
    requires n < |ids|
    ensures Notified(notes, ids[..n + 1], kind, reservation)
         == Notified(notes, ids[..n], kind, reservation)
            + if ids[n] in ids[..n] then [] else [Note(ids[n], kind, reservation)]
  {
    assert ids[..n + 1][..n] == ids[..n];
    assert NotesFor(Dedup(ids[..n]) + [ids[n]], kind, reservation)
        == NotesFor(Dedup(ids[..n]), kind, reservation) + [Note(ids[n], kind, reservation)];
  }

  lemma DedupOne(id: int)
    ensures Dedup([id]) == [id]
  {
    assert [id][..0] == [];
  }

  /** The roles a new account earns, in the order they are inserted. */
  lemma RolesEarned(phone: string, allowListed: bool, roles: seq<Role>)
    requires phone == "" && !allowListed ==> roles == [Buyer]
    requires phone != "" && !allowListed ==> roles == [Buyer, Seller]
    requires phone == "" && allowListed ==> roles == [Buyer, Admin]
    requires phone != "" && allowListed ==> roles == [Buyer, Seller, Admin]
    ensures roles == [Buyer] + (if phone != "" then [Seller] else []) + (if allowListed then [Admin] else [])
    ensures Holding(roles) == {Buyer} + (if phone != "" then {Seller} else {}) + (if allowListed then {Admin} else {})
  {
  }

  /** A connection inside a transaction, with its private view of the tables. */
  class Conn {
    var tables: Tables
    /** How many statements go well before one fails; None when none ever does. */
    var left: Option<nat>
    var broken: bool

    /** What the callback has yet to run, the statements it will get, and how that ends. */
    ghost var script: Script
    ghost var fuel: nat
    ghost const fate: Result

    constructor (committed: Tables, left: Option<nat>, ghost script: Script, ghost fuel: nat)
      requires match left case Some(n) => fuel == n case None => Run(script, committed, fuel).Ended?
      ensures Valid() && !broken && tables == committed && this.script == script
      ensures fate == Run(script, committed, fuel)
    {
      this.tables, this.left, this.broken := committed, left, false;
      this.script, this.fuel, this.fate := script, fuel, Run(script, committed, fuel);
    }

    ghost predicate Valid()
      reads this
    {
      (match left case Some(n) => fuel == n case None => fate.Ended?)
      && if broken then fate.Unfinished? else Run(script, tables, fuel) == fate
    }

    /** About to run this script. */
    ghost predicate Ready(p: Script)
      reads this
    {
      Valid() && !broken && script == p
    }

    /** Run to the script's end, or to the statement that failed. */
    ghost predicate Concluded(r: Answer<()>)
      reads this
    {
      Valid() && if broken then r == Err(ServerError) else Settles(script, r)
    }

    method Execute(st: Stmt) returns (r: Answer<Reply>)
      requires Valid() && !broken && Asks(script, st)
      modifies this
      ensures Valid() && (broken <==> r.Err?)
      ensures r.Ok? ==> (r.value, tables) == Exec(st, old(tables)) && script == Resumed(old(script), r.value)
      ensures r.Err? ==> r.error == ServerError
    {
      if left == Some(0) {
        broken := true;
        return Err(ServerError);
      }
      var (reply, next) := Exec(st, tables);
      script := Resumed(script, reply);
      tables := next;
      fuel := fuel - 1;
      if left.Some? {
        left := Some(left.value - 1);
      }
      return Ok(reply);
    }

    // ---------- Shared helpers ----------

    method AddNote(note: Note) returns (r: Answer<()>)
      requires Valid() && !broken && Asks(script, InsertNote(note))
      modifies this
      ensures Valid() && if broken then r == Err(ServerError) else r.Ok? && script == Resumed(old(script), Affected(1))
      ensures r.Ok? ==> tables == old(tables).(notes := old(tables).notes + [note])
    {
      var _ :- Execute(InsertNote(note));
      return Ok(());
    }

    method NotifyUsers(ids: seq<int>, kind: Kind, reservation: int) returns (r: Answer<()>)
      requires Ready(Notify(Dedup(ids), kind, reservation))
      modifies this
      ensures Concluded(r) && (broken <==> r.Err?)
      ensures !broken ==> tables == old(tables).(notes := Notified(old(tables).notes, ids, kind, reservation))
    {
      var seen: set<int> := {};
      assert ids[..0] == [] && ids[..|ids|] == ids;
      for i := 0 to |ids|
        invariant Ready(NotesLeft(ids, i, kind, reservation))
        invariant seen == set u | u in ids[..i]
        invariant tables == old(tables).(notes := Notified(old(tables).notes, ids[..i], kind, reservation))
      {
        NextRecipient(ids, i, kind, reservation);
        NextNote(old(tables).notes, ids, i, kind, reservation);
        if ids[i] !in seen {
          seen := seen + {ids[i]};
          var _ :- AddNote(Note(ids[i], kind, reservation));
        }
      }
      return Ok(());
    }

    method AdminIDs() returns (r: Answer<seq<int>>)
      requires Valid() && !broken && Asks(script, SelectAdmins)
      modifies this
      ensures Valid() && if broken then r == Err(ServerError) else r == Ok(AdminIds(tables))
      ensures r.Ok? ==> tables == old(tables) && script == Resumed(old(script), Ids(r.value))
    {
      var reply :- Execute(SelectAdmins);
      return Ok(reply.ids);
    }

    method AuditAction(actor: int, action: Action, target: Target) returns (r: Answer<()>)
      requires Valid() && !broken && (actor != 0 ==> Asks(script, InsertAudit(Entry(actor, action, target))))
      modifies this
      ensures Valid() && (r.Err? ==> r == Err(ServerError) && (actor == 0 || broken))
      ensures actor == 0 ==> r.Err? && unchanged(this)
      ensures r.Ok? ==> !broken && script == Resumed(old(script), Affected(1))
                        && tables == old(tables).(audit := old(tables).audit + [Entry(actor, action, target)])
    {
      if actor == 0 {
        return Err(ServerError);
      }
      var _ :- Execute(InsertAudit(Entry(actor, action, target)));
      return Ok(());
    }

    // ---------- Statements several handlers share ----------

    method JoinedReservation(id: int) returns (r: Answer<Option<(Reservation, int)>>)
      requires Valid() && !broken && Asks(script, SelectReservationJoinCar(id))
      modifies this
      ensures Valid() && if broken then r == Err(ServerError) else r.Ok?
      ensures r.Ok? ==>
        tables == old(tables)
        && r.value == (if Joined(tables, id) then Some((tables.reservations[id], OwnerOf(tables, id))) else None)
        && script == Resumed(old(script), match r.value
                                          case Some((row, owner)) => ReservationRow(row, owner)
                                          case None => NoRows)
    {
      var reply :- Execute(SelectReservationJoinCar(id));
      return Ok(if reply.ReservationRow? then Some((reply.reservation, reply.owner)) else None);
    }

    method BareReservationRow(id: int) returns (r: Answer<Option<Reservation>>)
      requires Valid() && !broken && Asks(script, SelectReservation(id))
      modifies this
      ensures Valid() && if broken then r == Err(ServerError) else r.Ok?
      ensures r.Ok? ==>
        tables == old(tables)
        && r.value == (if id in tables.reservations then Some(tables.reservations[id]) else None)
        && script == Resumed(old(script), match r.value case Some(row) => BareReservation(row) case None => NoRows)
    {
      var reply :- Execute(SelectReservation(id));
      return Ok(if reply.BareReservation? then Some(reply.reservation) else None);
    }

    method PaymentFor(id: int) returns (r: Answer<Option<(int, Payment)>>)
      requires Valid() && !broken && Asks(script, SelectPayment(id))
      modifies this
      ensures Valid() && if broken then r == Err(ServerError) else r.Ok?
      ensures r.Ok? ==>
        tables == old(tables)
        && r.value == (match PaymentRowOf(tables, id) case Some(p) => Some((p, tables.payments[p])) case None => None)
        && script == Resumed(old(script), match r.value case Some((p, row)) => PaymentRow(p, row) case None => NoRows)
    {
      var reply :- Execute(SelectPayment(id));
      return Ok(if reply.PaymentRow? then Some((reply.id, reply.payment)) else None);
    }

    method CarRow(id: int, owner: Option<int>) returns (r: Answer<Option<Car>>)
      requires Valid() && !broken && Asks(script, SelectCar(id, owner))
      modifies this
      ensures Valid() && if broken then r == Err(ServerError) else r.Ok?
      ensures r.Ok? ==>
        tables == old(tables)
        && r.value == (if Matches(tables, id, owner) then Some(tables.cars[id]) else None)
        && script == Resumed(old(script), match r.value case Some(row) => Reply.CarRow(row) case None => NoRows)
    {
      var reply :- Execute(SelectCar(id, owner));
      return Ok(if reply.CarRow? then Some(reply.car) else None);
    }

    /** SELECT COUNT(*) */
    method CountRows(st: Stmt) returns (r: Answer<nat>)
      requires st.CountOverlap? || st.CountFuture? || st.CountFutureOfOwner? || st.CountHistory? || st.CountPayments?
      requires Valid() && !broken && Asks(script, st)
      modifies this
      ensures Valid() && if broken then r == Err(ServerError) else r.Ok?
      ensures r.Ok? ==>
        tables == old(tables) && Count(r.value) == Exec(st, tables).0 && script == Resumed(old(script), Count(r.value))
    {
      var reply :- Execute(st);
      return Ok(reply.n);
    }

    method CancelOwn(id: int, user: int) returns (r: Answer<()>)
      requires Valid() && !broken && script.Then? && script.st == UpdateOwnStatus(id, user, Cancelled)
      requires id in tables.reservations && tables.reservations[id].buyer == user
      modifies this
      ensures Valid() && if broken then r == Err(ServerError) else r.Ok?
      ensures r.Ok? ==> script == old(script).rest
                        && tables == old(tables).(reservations := SetStatus(old(tables).reservations, id, Cancelled))
    {
      var _ :- Execute(UpdateOwnStatus(id, user, Cancelled));
      return Ok(());
    }

    method SetReservationStatus(id: int, status: Status) returns (r: Answer<()>)
      requires Valid() && !broken && script.Then? && script.st == UpdateStatus(id, status)
      modifies this
      ensures Valid() && if broken then r == Err(ServerError) else r.Ok?
      ensures r.Ok? ==> script == old(script).rest
                        && tables == old(tables).(reservations := SetStatus(old(tables).reservations, id, status))
    {
      var _ :- Execute(UpdateStatus(id, status));
      return Ok(());
    }

    /** UPDATE payments SET status = to WHERE reservation_id = id AND status = pending */
    method SettlePending(id: int, to: PayStatus) returns (r: Answer<nat>)
      requires Valid() && !broken && Asks(script, MovePayments(id, PayPending, to))
      modifies this
      ensures Valid() && if broken then r == Err(ServerError) else r.Ok?
      ensures r.Ok? ==>
        script == Resumed(old(script), Affected(r.value))
        && tables == old(tables).(payments := PaymentsMoved(old(tables).payments, id, PayPending, to))
        && r.value == |set p | p in old(tables).payments && old(tables).payments[p].reservation == id
                               && old(tables).payments[p].status == PayPending|
    {
      var reply :- Execute(MovePayments(id, PayPending, to));
      return Ok(reply.n);
    }

    method OverwritePayment(p: int, paidBy: PayMethod, proof: string) returns (r: Answer<()>)
      requires Valid() && !broken && script.Then? && script.st == ResubmitPayment(p, paidBy, proof)
      requires p in tables.payments
      modifies this
      ensures Valid() && if broken then r == Err(ServerError) else r.Ok?
      ensures r.Ok? ==>
        script == old(script).rest
        && tables == old(tables).(payments := old(tables).payments[p :=
             old(tables).payments[p].(paidBy := paidBy, proof := proof, status := PayPending)])
    {
      var _ :- Execute(ResubmitPayment(p, paidBy, proof));
      return Ok(());
    }

    /** Whether the first payment went in; a second one violates the unique key. */
    method InsertFirstPayment(id: int, paidBy: PayMethod, proof: string) returns (r: Answer<bool>)
      requires Valid() && !broken && Asks(script, InsertPayment(id, paidBy, proof))
      modifies this
      ensures Valid() && if broken then r == Err(ServerError) else r.Ok?
      ensures r.Ok? ==> (r.value <==> PaymentsOf(old(tables).payments, id) == {})
      ensures r.Ok? && !r.value ==> tables == old(tables) && script == Resumed(old(script), UniqueViolation)
      ensures r.Ok? && r.value ==>
        script == Resumed(old(script), NewId(old(tables).nextPayment))
        && tables == old(tables).(payments := old(tables).payments[old(tables).nextPayment :=
                                    Payment(id, paidBy, PayPending, proof)],
                                  nextPayment := old(tables).nextPayment + 1)
    {
      var reply :- Execute(InsertPayment(id, paidBy, proof));
      return Ok(!reply.UniqueViolation?);
    }

    /** How many rows the update reaches: the car's, when the owner matches. */
    method OverwriteCar(id: int, owner: Option<int>, row: Car) returns (r: Answer<nat>)
      requires Valid() && !broken && Asks(script, UpdateCar(id, owner, row.name, row.photo, row.price, row.active))
      requires id in tables.cars && row.owner == tables.cars[id].owner
      modifies this
      ensures Valid() && if broken then r == Err(ServerError) else r.Ok?
      ensures r.Ok? ==>
        script == Resumed(old(script), Affected(r.value))
        && r.value == (if Matches(old(tables), id, owner) then 1 else 0)
        && (r.value == 1 ==> tables == old(tables).(cars := old(tables).cars[id := row]))
    {
      var reply :- Execute(UpdateCar(id, owner, row.name, row.photo, row.price, row.active));
      return Ok(reply.n);
    }

    // ---------- Reservations ----------

    method CreateReservation(u: Actor, car: int, start: string, end: string) returns (r: Answer<()>)
      requires Ready(CreateScript(u, car, start, end))
      modifies this
      ensures Concluded(r)
      ensures !broken ==> Answers(r, tables, Create(old(tables), u, car, start, end))
    {
      var row :- CarRow(car, None);
      if row.None? {
        return Err(CarNotFound);
      }
      if !row.value.active {
        return Err(CarNotActive);
      }
      var overlap :- CountRows(CountOverlap(car, start, end));
      if overlap > 0 {
        return Err(AlreadyReserved);
      }
      var inserted :- Execute(InsertReservation(Reservation(u.id, car, start, end, Pending)));
      var admins :- AdminIDs();
      r := NotifyUsers(admins + [row.value.owner], NotifyRequested, inserted.id);
    }

    method CancelReservation(u: Actor, id: int) returns (r: Answer<()>)
      requires u.id != 0 && Ready(CancelScript(u, id))
      modifies this
      ensures Concluded(r)
      ensures !broken ==> Answers(r, tables, Cancel(old(tables), u, id))
    {
      var found :- JoinedReservation(id);
      if found.None? || found.value.0.buyer != u.id {
        return Err(ReservationNotFound);
      }
      var (reservation, owner) := found.value;
      if reservation.status != Pending {
        return Err(NotPending);
      }
      var payments :- CountRows(CountPayments(id));
      if payments > 0 {
        return Err(PaymentRecorded);
      }
      var _ :- CancelOwn(id, u.id);
      var _ :- AuditAction(u.id, AuditCancel, OnReservation(id));
      DedupOne(owner);
      r := NotifyUsers([owner], NotifyCancelled, id);
    }

    method AcceptReservation(u: Actor, id: int) returns (r: Answer<()>)
      requires u.id != 0 && Ready(AcceptScript(u, id))
      modifies this
      ensures Concluded(r)
      ensures !broken ==> Answers(r, tables, Accept(old(tables), u, id))
    {
      var found :- JoinedReservation(id);
      if found.None? || found.value.1 != u.id {
        return Err(ReservationNotFound);
      }
      var (reservation, owner) := found.value;
      if reservation.status != Pending {
        return Err(NotPending);
      }
      var _ :- SetReservationStatus(id, Accepted);
      var _ :- AuditAction(u.id, AuditAccept, OnReservation(id));
      DedupOne(reservation.buyer);
      r := NotifyUsers([reservation.buyer], NotifyAccepted, id);
    }

    method RejectReservation(u: Actor, id: int) returns (r: Answer<()>)
      requires u.id != 0 && Ready(RejectScript(u, id))
      modifies this
      ensures Concluded(r)
      ensures !broken ==> Answers(r, tables, Reject(old(tables), u, id))
    {
      var found :- JoinedReservation(id);
      if found.None? || found.value.1 != u.id {
        return Err(ReservationNotFound);
      }
      var (reservation, owner) := found.value;
      if reservation.status != Pending {
        return Err(NotPending);
      }
      var _ :- SettlePending(id, PayRejected);
      var _ :- SetReservationStatus(id, Rejected);
      var _ :- AuditAction(u.id, AuditReject, OnReservation(id));
      assert tables == old(tables).(payments := PaymentsMoved(old(tables).payments, id, PayPending, PayRejected),
                                    reservations := SetStatus(old(tables).reservations, id, Rejected),
                                    audit := old(tables).audit + [Entry(u.id, AuditReject, OnReservation(id))]);
      var admins :- AdminIDs();
      r := NotifyUsers(admins + [reservation.buyer], NotifyRejected, id);
    }

    method AdminConfirmReservation(u: Actor, id: int) returns (r: Answer<()>)
      requires u.id != 0 && Ready(ConfirmScript(u, id))
      modifies this
      ensures Concluded(r)
      ensures !broken ==> Answers(r, tables, Confirm(old(tables), u, id))
    {
      var found :- JoinedReservation(id);
      if found.None? {
        return Err(ReservationNotFound);
      }
      var (reservation, owner) := found.value;
      if reservation.status != Accepted {
        return Err(NotAccepted);
      }
      var pay :- PaymentFor(id);
      if pay.None? {
        return Err(NoPayment);
      }
      if pay.value.1.status != PayPending {
        return Err(PaymentNotPending);
      }
      var _ :- SettlePending(id, PayApproved);
      var _ :- SetReservationStatus(id, Confirmed);
      var _ :- AuditAction(u.id, AuditConfirm, OnReservation(id));
      assert tables == old(tables).(payments := PaymentsMoved(old(tables).payments, id, PayPending, PayApproved),
                                    reservations := SetStatus(old(tables).reservations, id, Confirmed),
                                    audit := old(tables).audit + [Entry(u.id, AuditConfirm, OnReservation(id))]);
      var admins :- AdminIDs();
      r := NotifyUsers(admins + [reservation.buyer, owner], NotifyConfirmed, id);
    }

    method AdminRequestCorrection(u: Actor, id: int) returns (r: Answer<()>)
      requires u.id != 0 && Ready(CorrectScript(u, id))
      modifies this
      ensures Concluded(r)
      ensures !broken ==> Answers(r, tables, Correct(old(tables), u, id))
    {
      var found :- BareReservationRow(id);
      if found.None? {
        return Err(ReservationNotFound);
      }
      if found.value.status != Accepted {
        return Err(NotAccepted);
      }
      var moved :- SettlePending(id, PayRejected);
      if moved == 0 {
        return Err(PaymentNotPending);
      }
      var _ :- AuditAction(u.id, AuditRequestCorrection, OnReservation(id));
      DedupOne(found.value.buyer);
      r := NotifyUsers([found.value.buyer], NotifyCorrectionRequested, id);
    }

    method RecordPayment(u: Actor, id: int, paidBy: PayMethod, proof: string) returns (r: Answer<()>)
      requires Ready(PayScript(u, id, paidBy, proof))
      modifies this
      ensures Concluded(r)
      ensures !broken ==> Answers(r, tables, Pay(old(tables), u, id, paidBy, proof))
    {
      var found :- BareReservationRow(id);
      if found.None? || found.value.buyer != u.id {
        return Err(ReservationNotFound);
      }
      var status := found.value.status;
      if status != Pending && status != Accepted {
        return Err(NotPending);
      }
      var pay :- PaymentFor(id);
      if pay.Some? {
        if pay.value.1.status == PayRejected && status == Accepted {
          var _ :- OverwritePayment(pay.value.0, paidBy, proof);
          var admins :- AdminIDs();
          assert admins + [] == admins;
          r := NotifyUsers(admins, NotifyCorrectionSubmitted, id);
          return;
        }
        return Err(PaymentRecorded);
      }
      var inserted :- InsertFirstPayment(id, paidBy, proof);
      if !inserted {
        return Err(PaymentRecorded);
      }
      return Ok(());
    }

    // ---------- Cars ----------

    /** The row's current values, overwritten one by one where the patch has a value. */
    static method Merge(car: Car, patch: Patch) returns (merged: Car)
      ensures merged == Patched(car, patch)
    {
      var curName, curPhoto, curPrice, curActive := car.name, car.photo, car.price, car.active;
      if patch.name.Some? {
        curName := patch.name.value;
      }
      if patch.photo.Some? {
        curPhoto := patch.photo.value;
      }
      if patch.price.Some? {
        curPrice := patch.price.value;
      }
      if patch.active.Some? {
        curActive := false;
        if patch.active.value {
          curActive := true;
        }
      }
      merged := Car(car.owner, curName, curPhoto, curPrice, curActive);
    }

    /** today is given when deactivation is guarded; last is what the caller runs after it. */
    method ApplyCarPatch(id: int, patch: Patch, owner: Option<int>, today: Option<string>, ghost last: Script)
      returns (r: Answer<()>)
      requires Ready(PatchScript(id, patch, owner, today, last))
      modifies this
      ensures Valid() && if broken then r == Err(ServerError) else script == if r.Ok? then last else Fail(r.error)
      ensures !broken ==> Answers(r, tables, ApplyPatch(old(tables), id, patch, owner, today))
    {
      var row :- CarRow(id, owner);
      if row.None? {
        return Err(CarNotFound);
      }
      var cur := Merge(row.value, patch);
      if today.Some? && patch.active.Some? && !patch.active.value {
        var future :- CountRows(CountFuture(id, today.value));
        if future > 0 {
          return Err(HasFutureReservations);
        }
      }
      var updated :- OverwriteCar(id, owner, cur);
      if updated == 0 {
        return Err(CarNotFound);
      }
      return Ok(());
    }

    method PatchCar(u: Actor, id: int, patch: Patch, today: string) returns (r: Answer<()>)
      requires Ready(PatchScript(id, patch, Some(u.id), Some(today), Finish))
      modifies this
      ensures Concluded(r)
      ensures !broken ==> Answers(r, tables, ApplyPatch(old(tables), id, patch, Some(u.id), Some(today)))
    {
      r := ApplyCarPatch(id, patch, Some(u.id), Some(today), Finish);
    }

    method AdminPatchCar(u: Actor, id: int, patch: Patch) returns (r: Answer<()>)
      requires u.id != 0
      requires Ready(PatchScript(id, patch, None, None,
                                 Then(InsertAudit(Entry(u.id, AuditCarUpdate, OnCar(id))), Finish)))
      modifies this
      ensures Concluded(r)
      ensures !broken ==>
        Answers(r, tables, Audited(ApplyPatch(old(tables), id, patch, None, None),
                                   Entry(u.id, AuditCarUpdate, OnCar(id))))
    {
      var _ :- ApplyCarPatch(id, patch, None, None, Then(InsertAudit(Entry(u.id, AuditCarUpdate, OnCar(id))), Finish));
      r := AuditAction(u.id, AuditCarUpdate, OnCar(id));
    }

    method DropCar(u: Actor, id: int) returns (r: Answer<()>)
      requires Ready(DropScript(id, Some(u.id), Finish))
      modifies this
      ensures Concluded(r)
      ensures !broken ==> Answers(r, tables, Drop(old(tables), id, Some(u.id)))
    {
      var row :- CarRow(id, None);
      if row.None? {
        return Err(CarNotFound);
      }
      if row.value.owner != u.id {
        return Err(CarNotFound);
      }
      var history :- CountRows(CountHistory(id));
      if history > 0 {
        return Err(HasReservations);
      }
      var _ :- Execute(DeleteCar(id, Some(u.id)));
      return Ok(());
    }

    method AdminDropCar(u: Actor, id: int) returns (r: Answer<()>)
      requires u.id != 0
      requires Ready(DropScript(id, None, Then(InsertAudit(Entry(u.id, AuditCarDelete, OnCar(id))), Finish)))
      modifies this
      ensures Concluded(r)
      ensures !broken ==>
        Answers(r, tables, Audited(Drop(old(tables), id, None), Entry(u.id, AuditCarDelete, OnCar(id))))
    {
      var row :- CarRow(id, None);
      if row.None? {
        return Err(CarNotFound);
      }
      var history :- CountRows(CountHistory(id));
      if history > 0 {
        return Err(HasReservations);
      }
      var _ :- Execute(DeleteCar(id, None));
      r := AuditAction(u.id, AuditCarDelete, OnCar(id));
    }

    // ---------- Accounts ----------

    /** One INSERT per role for the new account. */
    method InsertRoles(id: int, roles: seq<Role>) returns (r: Answer<()>)
      requires Ready(GrantAll(id, roles)) && id in tables.users && tables.users[id].roles == {}
      modifies this
      ensures Concluded(r) && (broken <==> r.Err?)
      ensures !broken ==> tables == old(tables).(users := SetRoles(old(tables).users, id, Holding(roles)))
    {
      ghost var start := tables;
      SetRolesTwice(start.users, id, {}, {});
      assert Holding(roles[..0]) == {} && roles[0..] == roles;
      for i := 0 to |roles|
        invariant Ready(GrantAll(id, roles[i..]))
        invariant tables == start.(users := SetRoles(start.users, id, Holding(roles[..i])))
      {
        InsertRoleAdds(id, roles[i], tables);
        SetRolesTwice(start.users, id, Holding(roles[..i]), Holding(roles[..i]) + {roles[i]});
        assert Holding(roles[..i + 1]) == Holding(roles[..i]) + {roles[i]};
        assert roles[i..][1..] == roles[i + 1..];
        var _ :- Execute(InsertRole(id, roles[i]));
      }
      assert roles[..|roles|] == roles;
      return Ok(());
    }

    /** A duplicate email answers alike and changes nothing. */
    method InsertAccount(email: string, phone: string, roles: seq<Role>, ghost allowListed: bool)
      returns (r: Answer<()>)
      requires Ready(RegisterScript(email, phone, allowListed))
      requires roles == [Buyer] + (if phone != "" then [Seller] else []) + (if allowListed then [Admin] else [])
      modifies this
      ensures Concluded(r) && (broken <==> r.Err?)
      ensures !broken ==>
        tables == (if UserByEmail(old(tables).users, email) != {} then old(tables) else
          old(tables).(users := old(tables).users[old(tables).nextUser := User(email, phone, Holding(roles), None)],
                       nextUser := old(tables).nextUser + 1))
    {
      var inserted :- Execute(InsertUser(email, phone));
      if inserted.UniqueViolation? {
        return Ok(());
      }
      r := InsertRoles(inserted.id, roles);
    }

    method Register(email: string, input: PhoneInput, allowListed: bool) returns (r: Answer<()>)
      requires Ready(match Normalized(input)
                     case None => Fail(InvalidPhone)
                     case Some(p) => RegisterScript(email, p, allowListed))
      modifies this
      ensures Concluded(r)
      ensures !broken ==> Answers(r, tables, Enrol(old(tables), email, input, allowListed))
    {
      var phone, ok := Phone.NormalizePhone(input.raw, input.cc, input.nationalLen);
      if !ok {
        return Err(InvalidPhone);
      }
      var roles := [Buyer];
      if phone != "" {
        roles := roles + [Seller];
      }
      if allowListed {
        roles := roles + [Admin];
      }
      RolesEarned(phone, allowListed, roles);
      r := InsertAccount(email, phone, roles, allowListed);
    }

    method BecomeSeller(u: Actor, input: PhoneInput) returns (r: Answer<()>)
      requires u.id in tables.users
      requires Ready(match Normalized(input)
                     case None => Fail(PhoneRequired)
                     case Some(p) => if p == "" then Fail(PhoneRequired) else PromoteScript(u, p))
      modifies this
      ensures Concluded(r)
      ensures !broken ==> Answers(r, tables, Promote(old(tables), u, input))
    {
      var phone, ok := Phone.NormalizePhone(input.raw, input.cc, input.nationalLen);
      if !ok || phone == "" {
        return Err(PhoneRequired);
      }
      var alreadySeller := Seller in u.roles;
      var _ :- Execute(SetPhone(u.id, phone));
      if !alreadySeller {
        InsertRoleAdds(u.id, Seller, tables);
        var _ :- Execute(InsertRole(u.id, Seller));
      }
      return Ok(());
    }

    method UpdateMe(u: Actor, input: PhoneInput) returns (r: Answer<()>)
      requires u.id in tables.users
      requires Ready(match Normalized(input)
                     case None => Fail(InvalidPhone)
                     case Some(p) =>
                       if Seller in u.roles && p == "" then Fail(PhoneRequired) else Then(SetPhone(u.id, p), Finish))
      modifies this
      ensures Concluded(r)
      ensures !broken ==> Answers(r, tables, ChangePhone(old(tables), u, input))
    {
      var phone, ok := Phone.NormalizePhone(input.raw, input.cc, input.nationalLen);
      if !ok {
        return Err(InvalidPhone);
      }
      if Seller in u.roles && phone == "" {
        return Err(PhoneRequired);
      }
      var _ :- Execute(SetPhone(u.id, phone));
      return Ok(());
    }

    method AdminPatchUser(u: Actor, id: int, suspended: bool, now: int) returns (r: Answer<()>)
      requires u.id != 0
      requires Ready(if u.id == id then Fail(CannotSuspendSelf) else SuspendScript(u, id, suspended, now))
      modifies this
      ensures Concluded(r)
      ensures !broken ==> Answers(r, tables, Suspend(old(tables), u, id, suspended, now))
    {
      if u.id == id {
        return Err(CannotSuspendSelf);
      }
      var row :- Execute(SelectUser(id));
      if row.NoRows? {
        return Err(UserNotFound);
      }
      if suspended {
        if row.user.suspendedAt.None? {
          var _ :- Execute(SetSuspended(id, Some(now)));
          r := AuditAction(u.id, AuditSuspend, OnUser(id));
          return;
        }
      } else {
        if row.user.suspendedAt.Some? {
          var _ :- Execute(SetSuspended(id, None));
          r := AuditAction(u.id, AuditUnsuspend, OnUser(id));
          return;
        }
      }
      return Ok(());
    }

    method AdminPatchUserRoles(u: Actor, id: int, seller: bool, today: string) returns (r: Answer<()>)
      requires u.id != 0
      requires Ready(SetSellerScript(u, id, seller, today))
      modifies this
      ensures Concluded(r)
      ensures !broken ==> Answers(r, tables, GrantOrRevoke(old(tables), u, id, seller, today))
    {
      var row :- Execute(SelectUser(id));
      if row.NoRows? {
        return Err(UserNotFound);
      }
      if seller && row.user.phone == "" {
        return Err(NoPhoneNumber);
      }
      if seller {
        var inserted :- Execute(InsertRole(id, Seller));
        if inserted.n > 0 {
          r := AuditAction(u.id, AuditGrantSeller, OnUser(id));
          return;
        }
      } else {
        var future :- CountRows(CountFutureOfOwner(id, today));
        if future > 0 {
          return Err(HasFutureReservations);
        }
        var deleted :- Execute(DeleteRole(id, Seller));
        if deleted.n > 0 {
          r := AuditAction(u.id, AuditRevokeSeller, OnUser(id));
          return;
        }
      }
      return Ok(());
    }

    // ---------- One request ----------

    method HandleBooking(e: Event) returns (r: Answer<()>)
      requires OnBooking(e.request) && EarlyError(e).None? && e.actor.id in tables.users && e.actor.id != 0
      requires Ready(ScriptOf(e))
      modifies this
      ensures Concluded(r) && (!broken ==> Answers(r, tables, Perform(old(tables), e)))
    {
      var u := e.actor;
      match e.request
      case CreateReservation(car, start, end, _) => r := CreateReservation(u, car, start, end);
      case CancelReservation(id) => r := CancelReservation(u, id);
      case RecordPayment(id, paidBy, proof) => r := RecordPayment(u, id, paidBy, proof);
      case AcceptReservation(id) => r := AcceptReservation(u, id);
      case RejectReservation(id) => r := RejectReservation(u, id);
      case ConfirmReservation(id) => r := AdminConfirmReservation(u, id);
      case RequestCorrection(id) => r := AdminRequestCorrection(u, id);
    }

    method CreateCar(u: Actor, name: string, photo: string, price: int) returns (r: Answer<()>)
      requires Ready(Then(InsertCar(Car(u.id, name, photo, price, true)), Finish))
      modifies this
      ensures Concluded(r)
      ensures !broken ==> r.Ok? && tables == Exec(InsertCar(Car(u.id, name, photo, price, true)), old(tables)).1
    {
      var _ :- Execute(InsertCar(Car(u.id, name, photo, price, true)));
      return Ok(());
    }

    method HandleListing(e: Event) returns (r: Answer<()>)
      requires OnListing(e.request) && EarlyError(e).None? && e.actor.id in tables.users && e.actor.id != 0
      requires Ready(ScriptOf(e))
      modifies this
      ensures Concluded(r) && (!broken ==> Answers(r, tables, Perform(old(tables), e)))
    {
      var u := e.actor;
      match e.request
      case CreateCar(name, photo, price) => r := CreateCar(u, name, photo, price);
      case PatchCar(id, patch, today) => r := PatchCar(u, id, patch, Format(today));
      case DropCar(id) => r := DropCar(u, id);
      case AdminPatchCar(id, patch) => r := AdminPatchCar(u, id, patch);
      case AdminDropCar(id) => r := AdminDropCar(u, id);
    }

    method ReloadAdmins(admins: set<int>) returns (r: Answer<()>)
      requires Ready(Then(SetAdmins(admins), Finish))
      modifies this
      ensures Concluded(r)
      ensures !broken ==> r.Ok? && tables == old(tables).(users := WithAdmins(old(tables).users, admins))
    {
      var _ :- Execute(SetAdmins(admins));
      return Ok(());
    }

    method HandleAccount(e: Event) returns (r: Answer<()>)
      requires !OnBooking(e.request) && !OnListing(e.request) && EarlyError(e).None?
      requires Anonymous(e.request) || (e.actor.id in tables.users && e.actor.id != 0)
      requires Ready(ScriptOf(e))
      modifies this
      ensures Concluded(r) && (!broken ==> Answers(r, tables, Perform(old(tables), e)))
    {
      var u := e.actor;
      match e.request
      case Register(email, input, allowListed) => r := Register(email, input, allowListed);
      case BecomeSeller(input) => r := BecomeSeller(u, input);
      case UpdateMe(input) => r := UpdateMe(u, input);
      case SuspendUser(id, suspended, now) => r := AdminPatchUser(u, id, suspended, now);
      case SetSeller(id, seller, today) => r := AdminPatchUserRoles(u, id, seller, Format(today));
      case SyncAdmins(admins) => r := ReloadAdmins(admins);
    }
  }
}
