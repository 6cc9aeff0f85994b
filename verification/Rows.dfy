// What every run keeps about rows: ids below their counters, references that resolve, one
// payment per reservation, and prices the checks let through.
module Rows {
  import opened Common
  import opened Calendar
  import opened Store
  import opened Booking
  import opened Shapes

  ghost predicate UsersOk(users: map<int, User>, next: nat)
  {
    next >= 1 && forall u | u in users :: 1 <= u < next
  }

  ghost predicate CarsOk(cars: map<int, Car>, next: nat, users: set<int>)
  {
    next >= 1
    && forall c | c in cars ::
         1 <= c < next && cars[c].owner in users && 0 <= cars[c].price <= MAX_PRICE_PER_DAY
  }

  ghost predicate ReservationsOk(rs: map<int, Reservation>, next: nat, users: set<int>, cars: set<int>)
  {
    next >= 1 && forall r | r in rs :: 1 <= r < next && rs[r].buyer in users && rs[r].car in cars
  }

  ghost predicate PaymentsOk(ps: map<int, Payment>, next: nat, reservations: set<int>)
  {
    && next >= 1
    && (forall p | p in ps :: 1 <= p < next && ps[p].reservation in reservations)
    && (forall p, q | p in ps && q in ps && ps[p].reservation == ps[q].reservation :: p == q)
  }

  ghost predicate EntryOk(e: Entry, users: set<int>, reservations: set<int>)
  {
    e.actor in users && (e.target.OnReservation? ==> e.target.reservation in reservations)
  }

  ghost predicate AuditOk(audit: seq<Entry>, users: set<int>, reservations: set<int>)
  {
    forall i | 0 <= i < |audit| :: EntryOk(audit[i], users, reservations)
  }

  ghost predicate NotesOk(notes: seq<Note>, users: set<int>, reservations: set<int>)
  {
    forall i | 0 <= i < |notes| :: notes[i].user in users && notes[i].reservation in reservations
  }

  ghost predicate RowsOk(t: Tables)
  {
    && UsersOk(t.users, t.nextUser)
    && CarsOk(t.cars, t.nextCar, t.users.Keys)
    && ReservationsOk(t.reservations, t.nextReservation, t.users.Keys, t.cars.Keys)
    && PaymentsOk(t.payments, t.nextPayment, t.reservations.Keys)
    && AuditOk(t.audit, t.users.Keys, t.reservations.Keys)
    && NotesOk(t.notes, t.users.Keys, t.reservations.Keys)
  }

  // ---------- Notes ----------

  lemma {:induction false} DedupMembers(ids: seq<int>)
    ensures forall u :: u in Dedup(ids) <==> u in ids
    ensures forall i, k | 0 <= i < k < |Dedup(ids)| :: Dedup(ids)[i] != Dedup(ids)[k]
  {
    if ids != [] {
      DedupMembers(ids[..|ids| - 1]);
      assert ids == ids[..|ids| - 1] + [ids[|ids| - 1]];
    }
  }

  lemma {:induction false} AdminsAre(users: map<int, User>, n: nat)
    ensures forall u :: u in AdminsBelow(users, n) <==> 0 <= u < n && u in users && Admin in users[u].roles
    ensures forall i, k | 0 <= i < k < |AdminsBelow(users, n)| :: AdminsBelow(users, n)[i] < AdminsBelow(users, n)[k]
  {
    if n > 0 {
      AdminsAre(users, n - 1);
      var front := AdminsBelow(users, n - 1);
      assert forall i | 0 <= i < |front| :: front[i] in front;
    }
  }

  lemma NotifiedOk(notes: seq<Note>, ids: seq<int>, kind: Kind, id: int, users: set<int>, reservations: set<int>)
    requires NotesOk(notes, users, reservations) && id in reservations && forall u | u in ids :: u in users
    ensures NotesOk(Notified(notes, ids, kind, id), users, reservations)
  {
    DedupMembers(ids);
    var n := Notified(notes, ids, kind, id);
    forall i | 0 <= i < |n| ensures n[i].user in users && n[i].reservation in reservations {
      if i >= |notes| {
        assert n[i].user in Dedup(ids);
      }
    }
  }

  lemma AdminsExist(t: Tables)
    ensures forall u | u in AdminIds(t) :: u in t.users
  {
    AdminsAre(t.users, t.nextUser);
  }

  // ---------- Reservations ----------

  lemma CreateRows(t: Tables, u: Actor, car: int, start: string, end: string)
    requires RowsOk(t) && u.id in t.users && Create(t, u, car, start, end).Done?
    ensures RowsOk(Create(t, u, car, start, end).t)
  {
    var id := t.nextReservation;
    var rs := t.reservations[id := Reservation(u.id, car, start, end, Pending)];
    AdminsExist(t);
    NotifiedOk(t.notes, AdminIds(t) + [t.cars[car].owner], NotifyRequested, id, t.users.Keys, rs.Keys);
    assert ReservationsOk(rs, id + 1, t.users.Keys, t.cars.Keys);
    assert PaymentsOk(t.payments, t.nextPayment, rs.Keys);
  }

  lemma SetStatusRows(rs: map<int, Reservation>, id: int, status: Status, next: nat, users: set<int>, cars: set<int>)
    requires ReservationsOk(rs, next, users, cars)
    ensures ReservationsOk(SetStatus(rs, id, status), next, users, cars) && SetStatus(rs, id, status).Keys == rs.Keys
  {
  }

  lemma TransitionRows(t: Tables, id: int, status: Status, actor: int, action: Action, ids: seq<int>, kind: Kind)
    requires RowsOk(t) && id in t.reservations && actor in t.users && forall u | u in ids :: u in t.users
    ensures RowsOk(Transition(t, id, status, actor, action, ids, kind))
  {
    SetStatusRows(t.reservations, id, status, t.nextReservation, t.users.Keys, t.cars.Keys);
    NotifiedOk(t.notes, ids, kind, id, t.users.Keys, t.reservations.Keys);
  }

  lemma MovedRows(ps: map<int, Payment>, id: int, from: PayStatus, to: PayStatus, next: nat, reservations: set<int>)
    requires PaymentsOk(ps, next, reservations)
    ensures PaymentsOk(PaymentsMoved(ps, id, from, to), next, reservations)
  {
    var qs := PaymentsMoved(ps, id, from, to);
    assert forall p | p in qs :: p in ps && qs[p].reservation == ps[p].reservation;
  }

  lemma SettleRows(t: Tables, u: Actor, id: int)
    requires RowsOk(t) && u.id in t.users
    ensures Reject(t, u, id).Done? ==> RowsOk(Reject(t, u, id).t)
    ensures Confirm(t, u, id).Done? ==> RowsOk(Confirm(t, u, id).t)
  {
    AdminsExist(t);
    if Reject(t, u, id).Done? {
      MovedRows(t.payments, id, PayPending, PayRejected, t.nextPayment, t.reservations.Keys);
      TransitionRows(t.(payments := PaymentsMoved(t.payments, id, PayPending, PayRejected)), id, Rejected, u.id,
                     AuditReject,
                     AdminIds(t) + [t.reservations[id].buyer], NotifyRejected);
    }
    if Confirm(t, u, id).Done? {
      MovedRows(t.payments, id, PayPending, PayApproved, t.nextPayment, t.reservations.Keys);
      TransitionRows(t.(payments := PaymentsMoved(t.payments, id, PayPending, PayApproved)), id, Confirmed, u.id,
                     AuditConfirm,
                     AdminIds(t) + [t.reservations[id].buyer, OwnerOf(t, id)], NotifyConfirmed);
    }
  }

  lemma CancelRows(t: Tables, u: Actor, id: int)
    requires RowsOk(t) && u.id in t.users
    ensures Cancel(t, u, id).Done? ==> RowsOk(Cancel(t, u, id).t)
    ensures Accept(t, u, id).Done? ==> RowsOk(Accept(t, u, id).t)
  {
    if Cancel(t, u, id).Done? {
      TransitionRows(t, id, Cancelled, u.id, AuditCancel, [OwnerOf(t, id)], NotifyCancelled);
    }
    if Accept(t, u, id).Done? {
      TransitionRows(t, id, Accepted, u.id, AuditAccept, [t.reservations[id].buyer], NotifyAccepted);
    }
  }

  lemma CorrectRows(t: Tables, u: Actor, id: int)
    requires RowsOk(t) && u.id in t.users && Correct(t, u, id).Done?
    ensures RowsOk(Correct(t, u, id).t)
  {
    MovedRows(t.payments, id, PayPending, PayRejected, t.nextPayment, t.reservations.Keys);
    NotifiedOk(t.notes, [t.reservations[id].buyer], NotifyCorrectionRequested, id, t.users.Keys, t.reservations.Keys);
  }

  lemma PayRows(t: Tables, u: Actor, id: int, paidBy: PayMethod, proof: string)
    requires RowsOk(t) && Pay(t, u, id, paidBy, proof).Done?
    ensures RowsOk(Pay(t, u, id, paidBy, proof).t)
  {
    var n := Pay(t, u, id, paidBy, proof).t;
    if PaymentRowOf(t, id).Some? {
      AdminsExist(t);
      NotifiedOk(t.notes, AdminIds(t), NotifyCorrectionSubmitted, id, t.users.Keys, t.reservations.Keys);
      assert forall p | p in n.payments :: p in t.payments && n.payments[p].reservation == t.payments[p].reservation;
    } else {
      forall p | p in t.payments ensures t.payments[p].reservation != id {
        assert p !in PaymentsOf(t.payments, id);
      }
    }
    assert PaymentsOk(n.payments, n.nextPayment, n.reservations.Keys);
  }

  lemma BookingRows(t: Tables, u: Actor, r: Request)
    requires RowsOk(t) && u.id in t.users && OnBooking(r) && CheckError(r).None? && BookingOutcome(t, u, r).Done?
    ensures RowsOk(BookingOutcome(t, u, r).t)
  {
    match r
    case CreateReservation(car, start, end, _) => CreateRows(t, u, car, start, end);
    case CancelReservation(id) => CancelRows(t, u, id);
    case RecordPayment(id, paidBy, proof) => PayRows(t, u, id, paidBy, proof);
    case AcceptReservation(id) => CancelRows(t, u, id);
    case RejectReservation(id) => SettleRows(t, u, id);
    case ConfirmReservation(id) => SettleRows(t, u, id);
    case RequestCorrection(id) => CorrectRows(t, u, id);
  }

  // ---------- Listings and accounts ----------

  lemma PatchRows(t: Tables, id: int, p: Patch, owner: Option<int>, today: Option<string>)
    requires RowsOk(t) && PatchError(p).None? && ApplyPatch(t, id, p, owner, today).Done?
    ensures RowsOk(ApplyPatch(t, id, p, owner, today).t)
  {
    var cars := t.cars[id := Patched(t.cars[id], p)];
    assert CarsOk(cars, t.nextCar, t.users.Keys);
    assert cars.Keys == t.cars.Keys;
  }

  /** A car that goes leaves no reservation behind. */
  lemma DropRows(t: Tables, id: int, owner: Option<int>)
    requires RowsOk(t) && Drop(t, id, owner).Done?
    ensures RowsOk(Drop(t, id, owner).t)
  {
    forall r | r in t.reservations ensures t.reservations[r].car != id {
      assert r !in HistoryOf(t.reservations, id);
    }
    var cars := t.cars - {id};
    assert CarsOk(cars, t.nextCar, t.users.Keys);
    assert ReservationsOk(t.reservations, t.nextReservation, t.users.Keys, cars.Keys);
  }

  lemma NewCarRows(t: Tables, car: Car)
    requires RowsOk(t) && car.owner in t.users && 0 <= car.price <= MAX_PRICE_PER_DAY
    ensures RowsOk(t.(cars := t.cars[t.nextCar := car], nextCar := t.nextCar + 1))
  {
    var cars := t.cars[t.nextCar := car];
    assert CarsOk(cars, t.nextCar + 1, t.users.Keys);
    assert ReservationsOk(t.reservations, t.nextReservation, t.users.Keys, cars.Keys);
  }

  lemma AuditedRows(t: Tables, entry: Entry)
    requires RowsOk(t) && EntryOk(entry, t.users.Keys, t.reservations.Keys)
    ensures RowsOk(t.(audit := t.audit + [entry]))
  {
  }

  lemma ListingRows(t: Tables, u: Actor, r: Request)
    requires RowsOk(t) && u.id in t.users && OnListing(r) && CheckError(r).None? && ListingOutcome(t, u, r).Done?
    ensures RowsOk(ListingOutcome(t, u, r).t)
  {
    match r
    case CreateCar(name, photo, price) => NewCarRows(t, Car(u.id, name, photo, price, true));
    case PatchCar(id, patch, today) => PatchRows(t, id, patch, Some(u.id), Some(Format(today)));
    case DropCar(id) => DropRows(t, id, Some(u.id));
    case AdminPatchCar(id, patch) =>
      PatchRows(t, id, patch, None, None);
      AuditedRows(ApplyPatch(t, id, patch, None, None).t, Entry(u.id, AuditCarUpdate, OnCar(id)));
    case AdminDropCar(id) =>
      DropRows(t, id, None);
      AuditedRows(Drop(t, id, None).t, Entry(u.id, AuditCarDelete, OnCar(id)));
  }

  /** More accounts break no reference. */
  lemma MoreUsersRows(t: Tables, users: map<int, User>, next: nat)
    requires RowsOk(t) && t.users.Keys <= users.Keys && UsersOk(users, next)
    ensures RowsOk(t.(users := users, nextUser := next))
  {
    assert CarsOk(t.cars, t.nextCar, users.Keys);
    assert ReservationsOk(t.reservations, t.nextReservation, users.Keys, t.cars.Keys);
    assert AuditOk(t.audit, users.Keys, t.reservations.Keys) by {
      assert forall i | 0 <= i < |t.audit| :: EntryOk(t.audit[i], t.users.Keys, t.reservations.Keys);
    }
    assert NotesOk(t.notes, users.Keys, t.reservations.Keys);
  }

  lemma AccountRows(t: Tables, u: Actor, r: Request)
    requires RowsOk(t) && OnAccount(r) && (Anonymous(r) || u.id in t.users) && AccountOutcome(t, u, r).Done?
    ensures RowsOk(AccountOutcome(t, u, r).t)
  {
    var n := AccountOutcome(t, u, r).t;
    AccountShape(t, u, r);
    NewUsersOk(t, u, r);
    MoreUsersRows(t, n.users, n.nextUser);
    if n.audit != t.audit {
      SignedByActor(t, u, r);
      assert n.audit == t.audit + [n.audit[|t.audit|]];
      AuditedRows(t.(users := n.users, nextUser := n.nextUser), n.audit[|t.audit|]);
    }
    assert n == t.(users := n.users, nextUser := n.nextUser, audit := n.audit);
  }

  lemma NewUsersOk(t: Tables, u: Actor, r: Request)
    requires UsersOk(t.users, t.nextUser)
    requires OnAccount(r) && (Anonymous(r) || u.id in t.users) && AccountOutcome(t, u, r).Done?
    ensures UsersOk(AccountOutcome(t, u, r).t.users, AccountOutcome(t, u, r).t.nextUser)
  {
    if r.SyncAdmins? {
      assert WithAdmins(t.users, r.admins).Keys == t.users.Keys;
    }
  }

  lemma SignedByActor(t: Tables, u: Actor, r: Request)
    requires OnAccount(r) && (Anonymous(r) || u.id in t.users) && AccountOutcome(t, u, r).Done?
    requires AccountOutcome(t, u, r).t.audit != t.audit
    ensures var audit := AccountOutcome(t, u, r).t.audit;
            |audit| > |t.audit| && audit[|t.audit|].actor == u.id && u.id in t.users
  {
  }

  lemma StepRowsOk(t: Tables, e: Event)
    requires RowsOk(t)
    ensures RowsOk(Commit(t, e))
  {
    if Perform(t, e).Done? {
      if OnBooking(e.request) {
        BookingRows(t, e.actor, e.request);
      } else if OnListing(e.request) {
        ListingRows(t, e.actor, e.request);
      } else {
        AccountRows(t, e.actor, e.request);
      }
    }
  }

  /** In every reachable state ids are below their counters, every reference resolves, prices
      are in range and a reservation has at most one payment. */
  lemma {:induction false} AfterRowsOk(events: seq<Event>)
    ensures RowsOk(After(events))
  {
    if events != [] {
      AfterRowsOk(events[..|events| - 1]);
      StepRowsOk(After(events[..|events| - 1]), events[|events| - 1]);
    }
  }
}
