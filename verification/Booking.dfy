// The handlers as one atomic step each: guards in the handler's order, then its writes.
module Booking {
  import opened Common
  import opened Calendar
  import opened Store
  import Phone

  const MAX_PRICE_PER_DAY := 100_000_000

  datatype Error =
    | Unauthorized | InsufficientPermissions
    | DatesNotTogether | InvalidStartDate | InvalidEndDate | EndBeforeStart | TooLong | StartInPast | CarIdRequired
    | CarNotFound | CarNotActive | AlreadyReserved
    | ReservationNotFound | NotPending | PaymentRecorded | NotAccepted | NoPayment | PaymentNotPending
    | NoFields | InvalidPrice | HasFutureReservations | HasReservations
    | InvalidPhone | PhoneRequired | UserNotFound | NoPhoneNumber | CannotSuspendSelf
    | ServerError

  /** Done carries the tables to commit; Refused leaves the committed ones as they were. */
  datatype Outcome = Done(t: Tables) | Refused(e: Error)

  /** The caller as RequireAuth read it before the transaction. */
  datatype Actor = Actor(id: int, roles: set<Role>)

  /** Raw phone text with the country configuration of the server reading it. */
  datatype PhoneInput = PhoneInput(raw: string, cc: string, nationalLen: int)

  datatype Patch = Patch(name: Option<string>, photo: Option<string>, price: Option<int>, active: Option<bool>)

  datatype Request =
    | Register(email: string, phone: PhoneInput, allowListed: bool)
    | BecomeSeller(phone: PhoneInput)
    | UpdateMe(phone: PhoneInput)
    | SuspendUser(id: int, suspended: bool, now: int)
    | SetSeller(id: int, seller: bool, today: Day)
    | SyncAdmins(admins: set<int>)
    | CreateCar(name: string, photo: string, price: int)
    | PatchCar(id: int, patch: Patch, today: Day)
    | DropCar(id: int)
    | AdminPatchCar(id: int, patch: Patch)
    | AdminDropCar(id: int)
    | CreateReservation(car: int, start: string, end: string, today: Day)
    | CancelReservation(id: int)
    | RecordPayment(id: int, paidBy: PayMethod, proof: string)
    | AcceptReservation(id: int)
    | RejectReservation(id: int)
    | ConfirmReservation(id: int)
    | RequestCorrection(id: int)

  datatype Event = Event(actor: Actor, request: Request)

  // ---------- Notes ----------

  /** notifyUsers drops repeated recipients, keeping each one's first place. */
  function Dedup(ids: seq<int>): seq<int>
  {
    if ids == [] then []
    else
      var front, last := ids[..|ids| - 1], ids[|ids| - 1];
      if last in front then Dedup(front) else Dedup(front) + [last]
  }

  function NotesFor(ids: seq<int>, kind: Kind, reservation: int): seq<Note>
  {
    seq(|ids|, i requires 0 <= i < |ids| => Note(ids[i], kind, reservation))
  }

  function Notified(notes: seq<Note>, ids: seq<int>, kind: Kind, reservation: int): seq<Note>
  {
    notes + NotesFor(Dedup(ids), kind, reservation)
  }

  // ---------- Reservations ----------

  /** The checks CreateReservation makes before it opens a transaction. */
  function DateError(start: string, end: string, today: Day): Option<Error>
  {
    var s, e := ParseDate(start), ParseDate(end);
    if s.None? then Some(InvalidStartDate)
    else if e.None? then Some(InvalidEndDate)
    else if Instant(e.value) < Instant(s.value) then Some(EndBeforeStart)
    else if ExceedsRentalCap(s.value, e.value) then Some(TooLong)
    else if StrLess(start, Format(today)) then Some(StartInPast)
    else None
  }

  function Create(t: Tables, u: Actor, car: int, start: string, end: string): Outcome
  {
    if car !in t.cars then Refused(CarNotFound)
    else if !t.cars[car].active then Refused(CarNotActive)
    else if |Overlapping(t.reservations, car, start, end)| > 0 then Refused(AlreadyReserved)
    else
      var id := t.nextReservation;
      Done(t.(reservations := t.reservations[id := Reservation(u.id, car, start, end, Pending)],
              nextReservation := id + 1,
              notes := Notified(t.notes, AdminIds(t) + [t.cars[car].owner], NotifyRequested, id)))
  }

  /** A change of status with its audit entry and its notes. */
  function Transition(t: Tables, id: int, status: Status, actor: int, action: Action, ids: seq<int>, kind: Kind): Tables
    requires id in t.reservations
  {
    t.(reservations := SetStatus(t.reservations, id, status),
       audit := t.audit + [Entry(actor, action, OnReservation(id))],
       notes := Notified(t.notes, ids, kind, id))
  }

  predicate Joined(t: Tables, id: int)
  {
    id in t.reservations && t.reservations[id].car in t.cars
  }

  function OwnerOf(t: Tables, id: int): int
    requires Joined(t, id)
  {
    t.cars[t.reservations[id].car].owner
  }

  function Cancel(t: Tables, u: Actor, id: int): Outcome
  {
    if !Joined(t, id) || t.reservations[id].buyer != u.id then Refused(ReservationNotFound)
    else if t.reservations[id].status != Pending then Refused(NotPending)
    else if |PaymentsOf(t.payments, id)| > 0 then Refused(PaymentRecorded)
    else Done(Transition(t, id, Cancelled, u.id, AuditCancel, [OwnerOf(t, id)], NotifyCancelled))
  }

  function Accept(t: Tables, u: Actor, id: int): Outcome
  {
    if !Joined(t, id) || OwnerOf(t, id) != u.id then Refused(ReservationNotFound)
    else if t.reservations[id].status != Pending then Refused(NotPending)
    else Done(Transition(t, id, Accepted, u.id, AuditAccept, [t.reservations[id].buyer], NotifyAccepted))
  }

  function Reject(t: Tables, u: Actor, id: int): Outcome
  {
    if !Joined(t, id) || OwnerOf(t, id) != u.id then Refused(ReservationNotFound)
    else if t.reservations[id].status != Pending then Refused(NotPending)
    else
      var paid := t.(payments := PaymentsMoved(t.payments, id, PayPending, PayRejected));
      Done(Transition(paid, id, Rejected, u.id, AuditReject, AdminIds(t) + [t.reservations[id].buyer], NotifyRejected))
  }

  function PaymentRowOf(t: Tables, id: int): (r: Option<int>)
    ensures r.Some? ==> r.value in t.payments && t.payments[r.value].reservation == id
  {
    FindPayment(t.payments, id, t.nextPayment)
  }

  function Confirm(t: Tables, u: Actor, id: int): Outcome
  {
    if !Joined(t, id) then Refused(ReservationNotFound)
    else if t.reservations[id].status != Accepted then Refused(NotAccepted)
    else if PaymentRowOf(t, id).None? then Refused(NoPayment)
    else if t.payments[PaymentRowOf(t, id).value].status != PayPending then Refused(PaymentNotPending)
    else
      var paid := t.(payments := PaymentsMoved(t.payments, id, PayPending, PayApproved));
      Done(Transition(paid, id, Confirmed, u.id, AuditConfirm,
                      AdminIds(t) + [t.reservations[id].buyer, OwnerOf(t, id)], NotifyConfirmed))
  }

  function Correct(t: Tables, u: Actor, id: int): Outcome
  {
    if id !in t.reservations then Refused(ReservationNotFound)
    else if t.reservations[id].status != Accepted then Refused(NotAccepted)
    else if |set p | p in t.payments && t.payments[p].reservation == id && t.payments[p].status == PayPending| == 0
    then Refused(PaymentNotPending)
    else
      Done(t.(payments := PaymentsMoved(t.payments, id, PayPending, PayRejected),
              audit := t.audit + [Entry(u.id, AuditRequestCorrection, OnReservation(id))],
              notes := Notified(t.notes, [t.reservations[id].buyer], NotifyCorrectionRequested, id)))
  }

  function Pay(t: Tables, u: Actor, id: int, paidBy: PayMethod, proof: string): Outcome
  {
    if id !in t.reservations || t.reservations[id].buyer != u.id then Refused(ReservationNotFound)
    else if t.reservations[id].status != Pending && t.reservations[id].status != Accepted then Refused(NotPending)
    else
      match PaymentRowOf(t, id)
      case Some(p) =>
        if t.payments[p].status == PayRejected && t.reservations[id].status == Accepted
        then Done(t.(payments := t.payments[p :=
                       t.payments[p].(paidBy := paidBy, proof := proof, status := PayPending)],
                     notes := Notified(t.notes, AdminIds(t), NotifyCorrectionSubmitted, id)))
        else Refused(PaymentRecorded)
      case None =>
        if PaymentsOf(t.payments, id) != {} then Refused(PaymentRecorded)
        else Done(t.(payments := t.payments[t.nextPayment := Payment(id, paidBy, PayPending, proof)],
                     nextPayment := t.nextPayment + 1))
  }

  // ---------- Cars ----------

  function PatchError(p: Patch): Option<Error>
  {
    if p.name.None? && p.photo.None? && p.price.None? && p.active.None? then Some(NoFields)
    else if p.price.Some? && !(0 <= p.price.value <= MAX_PRICE_PER_DAY) then Some(InvalidPrice)
    else None
  }

  function GetOr<T>(o: Option<T>, other: T): T
  {
    match o case Some(v) => v case None => other
  }

  function Patched(c: Car, p: Patch): Car
  {
    c.(name := GetOr(p.name, c.name), photo := GetOr(p.photo, c.photo), price := GetOr(p.price, c.price),
       active := GetOr(p.active, c.active))
  }

  /** applyCarPatch: owner restricts the lookup; today is given when deactivation is guarded. */
  function ApplyPatch(t: Tables, id: int, p: Patch, owner: Option<int>, today: Option<string>): Outcome
  {
    if !Matches(t, id, owner) then Refused(CarNotFound)
    else if today.Some? && p.active == Some(false) && |FutureOf(t.reservations, id, today.value)| > 0
      then Refused(HasFutureReservations)
    else Done(t.(cars := t.cars[id := Patched(t.cars[id], p)]))
  }

  function Audited(o: Outcome, entry: Entry): Outcome
  {
    match o
    case Refused(e) => o
    case Done(t) => Done(t.(audit := t.audit + [entry]))
  }

  /** DeleteCar and AdminDeleteCar: only a car that never had a reservation goes. */
  function Drop(t: Tables, id: int, owner: Option<int>): Outcome
  {
    if !Matches(t, id, owner) then Refused(CarNotFound)
    else if |HistoryOf(t.reservations, id)| > 0 then Refused(HasReservations)
    else Done(t.(cars := t.cars - {id}))
  }

  // ---------- Accounts ----------

  function Normalized(p: PhoneInput): Option<string>
  {
    Phone.Normalize(p.raw, p.cc, p.nationalLen)
  }

  /** A duplicate email answers like a creation and changes nothing. */
  function Enrol(t: Tables, email: string, phone: PhoneInput, allowListed: bool): Outcome
  {
    match Normalized(phone)
    case None => Refused(InvalidPhone)
    case Some(p) =>
      if UserByEmail(t.users, email) != {} then Done(t)
      else
        var roles := {Buyer} + (if p != "" then {Seller} else {}) + (if allowListed then {Admin} else {});
        Done(t.(users := t.users[t.nextUser := User(email, p, roles, None)], nextUser := t.nextUser + 1))
  }

  function Promote(t: Tables, u: Actor, phone: PhoneInput): Outcome
    requires u.id in t.users
  {
    match Normalized(phone)
    case None => Refused(PhoneRequired)
    case Some(p) =>
      if p == "" then Refused(PhoneRequired)
      else
        var row := t.users[u.id].(phone := p);
        Done(t.(users := t.users[u.id := if Seller in u.roles then row else row.(roles := row.roles + {Seller})]))
  }

  function ChangePhone(t: Tables, u: Actor, phone: PhoneInput): Outcome
    requires u.id in t.users
  {
    match Normalized(phone)
    case None => Refused(InvalidPhone)
    case Some(p) =>
      if Seller in u.roles && p == "" then Refused(PhoneRequired)
      else Done(t.(users := t.users[u.id := t.users[u.id].(phone := p)]))
  }

  function Suspend(t: Tables, u: Actor, id: int, suspended: bool, now: int): Outcome
  {
    if u.id == id then Refused(CannotSuspendSelf)
    else if id !in t.users then Refused(UserNotFound)
    else if suspended == t.users[id].suspendedAt.Some? then Done(t)
    else Done(t.(users := t.users[id := t.users[id].(suspendedAt := if suspended then Some(now) else None)],
                 audit := t.audit + [Entry(u.id, if suspended then AuditSuspend else AuditUnsuspend, OnUser(id))]))
  }

  function GrantOrRevoke(t: Tables, u: Actor, id: int, seller: bool, today: string): Outcome
  {
    if id !in t.users then Refused(UserNotFound)
    else if seller && t.users[id].phone == "" then Refused(NoPhoneNumber)
    else if !seller && |FutureOfOwner(t, id, today)| > 0 then Refused(HasFutureReservations)
    else if seller == (Seller in t.users[id].roles) then Done(t)
    else
      var roles := if seller then t.users[id].roles + {Seller} else t.users[id].roles - {Seller};
      Done(t.(users := t.users[id := t.users[id].(roles := roles)],
              audit := t.audit + [Entry(u.id, if seller then AuditGrantSeller else AuditRevokeSeller, OnUser(id))]))
  }

  // ---------- One event ----------

  /** The role a route demands; None is a route without RequireRole. */
  function RouteRole(r: Request): Option<Role>
  {
    match r
    case Register(_, _, _) => None
    case BecomeSeller(_) => None
    case UpdateMe(_) => None
    case SyncAdmins(_) => None
    case CreateReservation(_, _, _, _) => Some(Buyer)
    case CancelReservation(_) => Some(Buyer)
    case RecordPayment(_, _, _) => Some(Buyer)
    case CreateCar(_, _, _) => Some(Seller)
    case PatchCar(_, _, _) => Some(Seller)
    case DropCar(_) => Some(Seller)
    case AcceptReservation(_) => Some(Seller)
    case RejectReservation(_) => Some(Seller)
    case _ => Some(Admin)
  }

  predicate OnAccount(r: Request)
  {
    !OnBooking(r) && !OnListing(r)
  }

  predicate Anonymous(r: Request)
  {
    r.Register? || r.SyncAdmins?
  }

  predicate OnBooking(r: Request)
  {
    r.CreateReservation? || r.CancelReservation? || r.RecordPayment? || r.AcceptReservation? || r.RejectReservation?
    || r.ConfirmReservation? || r.RequestCorrection?
  }

  predicate OnOwnListing(r: Request)
  {
    r.CreateCar? || r.PatchCar? || r.DropCar?
  }

  predicate OnListing(r: Request)
  {
    OnOwnListing(r) || r.AdminPatchCar? || r.AdminDropCar?
  }

  /** What a handler refuses by looking at the request alone. */
  function CheckError(r: Request): Option<Error>
  {
    match r
    case CreateReservation(car, start, end, today) =>
      if DateError(start, end, today).Some? then DateError(start, end, today)
      else if car == 0 then Some(CarIdRequired) else None
    case CreateCar(_, _, price) => if 0 <= price <= MAX_PRICE_PER_DAY then None else Some(InvalidPrice)
    case PatchCar(_, patch, _) => PatchError(patch)
    case AdminPatchCar(_, patch) => PatchError(patch)
    case _ => None
  }

  /** What the route and the handler refuse before any statement runs. */
  function EarlyError(e: Event): Option<Error>
  {
    if RouteRole(e.request).Some? && RouteRole(e.request).value !in e.actor.roles then Some(InsufficientPermissions)
    else CheckError(e.request)
  }

  function BookingOutcome(t: Tables, u: Actor, r: Request): Outcome
    requires OnBooking(r)
  {
    match r
    case CreateReservation(car, start, end, _) => Create(t, u, car, start, end)
    case CancelReservation(id) => Cancel(t, u, id)
    case RecordPayment(id, paidBy, proof) => Pay(t, u, id, paidBy, proof)
    case AcceptReservation(id) => Accept(t, u, id)
    case RejectReservation(id) => Reject(t, u, id)
    case ConfirmReservation(id) => Confirm(t, u, id)
    case RequestCorrection(id) => Correct(t, u, id)
  }

  function ListingOutcome(t: Tables, u: Actor, r: Request): Outcome
    requires OnListing(r)
  {
    match r
    case CreateCar(name, photo, price) =>
      Done(t.(cars := t.cars[t.nextCar := Car(u.id, name, photo, price, true)], nextCar := t.nextCar + 1))
    case PatchCar(id, patch, today) => ApplyPatch(t, id, patch, Some(u.id), Some(Format(today)))
    case DropCar(id) => Drop(t, id, Some(u.id))
    case AdminPatchCar(id, patch) =>
      Audited(ApplyPatch(t, id, patch, None, None), Entry(u.id, AuditCarUpdate, OnCar(id)))
    case AdminDropCar(id) => Audited(Drop(t, id, None), Entry(u.id, AuditCarDelete, OnCar(id)))
  }

  function AccountOutcome(t: Tables, u: Actor, r: Request): Outcome
    requires OnAccount(r) && (Anonymous(r) || u.id in t.users)
  {
    match r
    case Register(email, phone, allowListed) => Enrol(t, email, phone, allowListed)
    case BecomeSeller(phone) => Promote(t, u, phone)
    case UpdateMe(phone) => ChangePhone(t, u, phone)
    case SuspendUser(id, suspended, now) => Suspend(t, u, id, suspended, now)
    case SetSeller(id, seller, today) => GrantOrRevoke(t, u, id, seller, Format(today))
    case SyncAdmins(admins) => Done(t.(users := WithAdmins(t.users, admins)))
  }

  /** A whole request, taken as one step. */
  function Perform(t: Tables, e: Event): Outcome
  {
    if !Anonymous(e.request) && e.actor.id !in t.users then Refused(Unauthorized)
    else if EarlyError(e).Some? then Refused(EarlyError(e).value)
    else if OnBooking(e.request) then BookingOutcome(t, e.actor, e.request)
    else if OnListing(e.request) then ListingOutcome(t, e.actor, e.request)
    else AccountOutcome(t, e.actor, e.request)
  }

  /** The committed tables after an event. */
  function Commit(t: Tables, e: Event): Tables
  {
    match Perform(t, e) case Done(n) => n case Refused(_) => t
  }

  /** The committed tables after a run of whole requests from the empty database. */
  function After(events: seq<Event>): Tables
  {
    if events == [] then EmptyTables() else Commit(After(events[..|events| - 1]), events[|events| - 1])
  }

  lemma AfterNext(events: seq<Event>, n: nat)
    requires n < |events|
    ensures After(events[..n + 1]) == Commit(After(events[..n]), events[n])
  {
    assert events[..n + 1][..n] == events[..n];
  }
}
