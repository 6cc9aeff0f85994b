// The tables the handlers move, and the SQL statements they move them with.
module Store {
  import opened Common

  datatype Role = Buyer | Seller | Admin
  datatype Status = Pending | Accepted | Confirmed | Rejected | Cancelled
  datatype PayStatus = PayPending | PayApproved | PayRejected
  datatype PayMethod = Pos | Cash
  datatype Kind =
    | NotifyRequested | NotifyAccepted | NotifyRejected | NotifyConfirmed
    | NotifyCorrectionRequested | NotifyCancelled | NotifyCorrectionSubmitted
  datatype Action =
    | AuditAccept | AuditReject | AuditCancel | AuditConfirm | AuditRequestCorrection
    | AuditSuspend | AuditUnsuspend | AuditGrantSeller | AuditRevokeSeller
    | AuditCarUpdate | AuditCarDelete
  datatype Target = OnReservation(reservation: int) | OnUser(user: int) | OnCar(car: int)

  datatype User = User(email: string, phone: string, roles: set<Role>, suspendedAt: Option<int>)
  datatype Car = Car(owner: int, name: string, photo: string, price: int, active: bool)
  datatype Reservation = Reservation(buyer: int, car: int, start: string, end: string, status: Status)
  datatype Payment = Payment(reservation: int, paidBy: PayMethod, status: PayStatus, proof: string)
  datatype Note = Note(user: int, kind: Kind, reservation: int)
  datatype Entry = Entry(actor: int, action: Action, target: Target)

  /** Rows by id; the next counters are AUTOINCREMENT, so no id is ever reused. */
  datatype Tables = Tables(
    users: map<int, User>, cars: map<int, Car>, reservations: map<int, Reservation>, payments: map<int, Payment>,
    notes: seq<Note>, audit: seq<Entry>,
    nextUser: nat, nextCar: nat, nextReservation: nat, nextPayment: nat)

  function EmptyTables(): Tables
  {
    Tables(map[], map[], map[], map[], [], [], 1, 1, 1, 1)
  }

  // ---------- Queries ----------

  /** status NOT IN (cancelled, rejected) */
  predicate Blocking(s: Status)
  {
    s != Cancelled && s != Rejected
  }

  /** OverlapPredicate: r.start_date <= end AND r.end_date >= start, on text. */
  predicate Overlaps(r: Reservation, start: string, end: string)
  {
    StrLe(r.start, end) && StrLe(start, r.end)
  }

  function Overlapping(rs: map<int, Reservation>, car: int, start: string, end: string): set<int>
  {
    set r | r in rs && rs[r].car == car && Blocking(rs[r].status) && Overlaps(rs[r], start, end)
  }

  /** Blocking reservations of a car that end today or later. */
  function FutureOf(rs: map<int, Reservation>, car: int, today: string): set<int>
  {
    set r | r in rs && rs[r].car == car && Blocking(rs[r].status) && StrLe(today, rs[r].end)
  }

  function FutureOfOwner(t: Tables, owner: int, today: string): set<int>
  {
    set r | r in t.reservations && t.reservations[r].car in t.cars && t.cars[t.reservations[r].car].owner == owner
            && Blocking(t.reservations[r].status) && StrLe(today, t.reservations[r].end)
  }

  function HistoryOf(rs: map<int, Reservation>, car: int): set<int>
  {
    set r | r in rs && rs[r].car == car
  }

  function PaymentsOf(ps: map<int, Payment>, reservation: int): set<int>
  {
    set p | p in ps && ps[p].reservation == reservation
  }

  /** The payment row a lookup by reservation_id finds, scanning ids below n. */
  function FindPayment(ps: map<int, Payment>, reservation: int, n: nat): (r: Option<int>)
    ensures r.Some? ==> r.value in ps && ps[r.value].reservation == reservation
    ensures r.None? ==> forall p | p in ps && 0 <= p < n :: ps[p].reservation != reservation
  {
    if n == 0 then None
    else
      match FindPayment(ps, reservation, n - 1)
      case Some(p) => Some(p)
      case None => if n - 1 in ps && ps[n - 1].reservation == reservation then Some(n - 1) else None
  }

  /** adminIDs: the users holding the admin role, by ascending id below n. */
  function AdminsBelow(users: map<int, User>, n: nat): seq<int>
  {
    if n == 0 then []
    else AdminsBelow(users, n - 1) + if n - 1 in users && Admin in users[n - 1].roles then [n - 1] else []
  }

  function AdminIds(t: Tables): seq<int>
  {
    AdminsBelow(t.users, t.nextUser)
  }

  function UserByEmail(users: map<int, User>, email: string): set<int>
  {
    set u | u in users && users[u].email == email
  }

  // ---------- Statements ----------

  datatype Stmt =
    | SelectCar(id: int, owner: Option<int>)
    | CountOverlap(car: int, start: string, end: string)
    | CountFuture(car: int, today: string)
    | CountFutureOfOwner(seller: int, today: string)
    | CountHistory(car: int)
    | SelectReservation(id: int)
    | SelectReservationJoinCar(id: int)
    | SelectPayment(reservation: int)
    | CountPayments(reservation: int)
    | SelectAdmins
    | SelectUser(id: int)
    | InsertUser(email: string, phone: string)
    | InsertRole(user: int, role: Role)
    | DeleteRole(user: int, role: Role)
    | SetAdmins(ids: set<int>)
    | SetPhone(user: int, phone: string)
    | SetSuspended(user: int, at: Option<int>)
    | InsertCar(listing: Car)
    | UpdateCar(id: int, owner: Option<int>, name: string, photo: string, price: int, active: bool)
    | DeleteCar(id: int, owner: Option<int>)
    | InsertReservation(booking: Reservation)
    | UpdateStatus(id: int, status: Status)
    | UpdateOwnStatus(id: int, user: int, status: Status)
    | InsertPayment(reservation: int, paidBy: PayMethod, proof: string)
    | ResubmitPayment(id: int, paidBy: PayMethod, proof: string)
    | MovePayments(reservation: int, from: PayStatus, to: PayStatus)
    | InsertNote(note: Note)
    | InsertAudit(entry: Entry)

  datatype Reply =
    | NoRows
    | UniqueViolation
    | Affected(n: nat)
    | Count(n: nat)
    | NewId(id: int)
    | Ids(ids: seq<int>)
    | CarRow(car: Car)
    | UserRow(user: User)
    | PaymentRow(id: int, payment: Payment)
    | BareReservation(reservation: Reservation)
    | ReservationRow(reservation: Reservation, owner: int)

  function SetStatus(rs: map<int, Reservation>, id: int, status: Status): map<int, Reservation>
  {
    if id in rs then rs[id := rs[id].(status := status)] else rs
  }

  /** UPDATE payments SET status = to WHERE reservation_id = r AND status = from */
  function PaymentsMoved(ps: map<int, Payment>, reservation: int, from: PayStatus, to: PayStatus): map<int, Payment>
  {
    map p | p in ps :: if ps[p].reservation == reservation && ps[p].status == from then ps[p].(status := to) else ps[p]
  }

  function SetRoles(users: map<int, User>, u: int, roles: set<Role>): map<int, User>
  {
    if u in users then users[u := users[u].(roles := roles)] else users
  }

  /** The users with exactly these administrators among them. */
  function WithAdmins(users: map<int, User>, ids: set<int>): map<int, User>
  {
    map u | u in users :: users[u].(roles := users[u].roles - {Admin} + if u in ids then {Admin} else {})
  }

  function Holding(roles: seq<Role>): set<Role>
  {
    set r | r in roles
  }

  predicate Matches(t: Tables, car: int, owner: Option<int>)
  {
    car in t.cars && (owner.None? || t.cars[car].owner == owner.value)
  }

  /** One statement: what it answers and the tables after it. */
  function Exec(st: Stmt, t: Tables): (Reply, Tables)
  {
    match st
    case SelectCar(id, owner) => (if Matches(t, id, owner) then CarRow(t.cars[id]) else NoRows, t)
    case CountOverlap(car, start, end) => (Count(|Overlapping(t.reservations, car, start, end)|), t)
    case CountFuture(car, today) => (Count(|FutureOf(t.reservations, car, today)|), t)
    case CountFutureOfOwner(owner, today) => (Count(|FutureOfOwner(t, owner, today)|), t)
    case CountHistory(car) => (Count(|HistoryOf(t.reservations, car)|), t)
    case SelectReservation(id) => (if id in t.reservations then BareReservation(t.reservations[id]) else NoRows, t)
    case SelectReservationJoinCar(id) =>
      (if id in t.reservations && t.reservations[id].car in t.cars
       then ReservationRow(t.reservations[id], t.cars[t.reservations[id].car].owner) else NoRows, t)
    case SelectPayment(reservation) =>
      (match FindPayment(t.payments, reservation, t.nextPayment)
       case Some(p) => PaymentRow(p, t.payments[p])
       case None => NoRows, t)
    case CountPayments(reservation) => (Count(|PaymentsOf(t.payments, reservation)|), t)
    case SelectAdmins => (Ids(AdminIds(t)), t)
    case SelectUser(id) => (if id in t.users then UserRow(t.users[id]) else NoRows, t)
    case InsertUser(email, phone) =>
      if UserByEmail(t.users, email) != {} then (UniqueViolation, t)
      else (NewId(t.nextUser),
            t.(users := t.users[t.nextUser := User(email, phone, {}, None)], nextUser := t.nextUser + 1))
    case InsertRole(u, role) =>
      if u in t.users && role !in t.users[u].roles
      then (Affected(1), t.(users := SetRoles(t.users, u, t.users[u].roles + {role}))) else (Affected(0), t)
    case DeleteRole(u, role) =>
      if u in t.users && role in t.users[u].roles
      then (Affected(1), t.(users := SetRoles(t.users, u, t.users[u].roles - {role}))) else (Affected(0), t)
    case SetAdmins(ids) =>
      (Affected(0), t.(users := WithAdmins(t.users, ids)))
    case SetPhone(u, phone) =>
      if u in t.users then (Affected(1), t.(users := t.users[u := t.users[u].(phone := phone)])) else (Affected(0), t)
    case SetSuspended(u, at) =>
      if u in t.users then (Affected(1), t.(users := t.users[u := t.users[u].(suspendedAt := at)]))
        else (Affected(0), t)
    case InsertCar(row) => (NewId(t.nextCar), t.(cars := t.cars[t.nextCar := row], nextCar := t.nextCar + 1))
    case UpdateCar(id, owner, name, photo, price, active) =>
      if Matches(t, id, owner)
      then (Affected(1),
            t.(cars := t.cars[id := t.cars[id].(name := name, photo := photo, price := price, active := active)]))
      else (Affected(0), t)
    case DeleteCar(id, owner) =>
      if Matches(t, id, owner) then (Affected(1), t.(cars := t.cars - {id})) else (Affected(0), t)
    case InsertReservation(row) =>
      (NewId(t.nextReservation),
       t.(reservations := t.reservations[t.nextReservation := row], nextReservation := t.nextReservation + 1))
    case UpdateStatus(id, status) =>
      (Affected(if id in t.reservations then 1 else 0), t.(reservations := SetStatus(t.reservations, id, status)))
    case UpdateOwnStatus(id, user, status) =>
      if id in t.reservations && t.reservations[id].buyer == user
      then (Affected(1), t.(reservations := SetStatus(t.reservations, id, status))) else (Affected(0), t)
    case InsertPayment(reservation, paidBy, proof) =>
      if PaymentsOf(t.payments, reservation) != {} then (UniqueViolation, t)
      else (NewId(t.nextPayment),
            t.(payments := t.payments[t.nextPayment := Payment(reservation, paidBy, PayPending, proof)],
               nextPayment := t.nextPayment + 1))
    case ResubmitPayment(id, paidBy, proof) =>
      if id in t.payments
      then (Affected(1),
            t.(payments := t.payments[id := t.payments[id].(paidBy := paidBy, proof := proof, status := PayPending)]))
      else (Affected(0), t)
    case MovePayments(reservation, from, to) =>
      (Affected(|set p | p in t.payments && t.payments[p].reservation == reservation && t.payments[p].status == from|),
       t.(payments := PaymentsMoved(t.payments, reservation, from, to)))
    case InsertNote(note) => (Affected(1), t.(notes := t.notes + [note]))
    case InsertAudit(entry) => (Affected(1), t.(audit := t.audit + [entry]))
  }

  lemma SetRolesTwice(users: map<int, User>, u: int, a: set<Role>, b: set<Role>)
    requires u in users
    ensures SetRoles(SetRoles(users, u, a), u, b) == SetRoles(users, u, b)
    ensures SetRoles(users, u, users[u].roles) == users
  {
  }

  lemma InsertRoleAdds(u: int, role: Role, t: Tables)
    requires u in t.users
    ensures Exec(InsertRole(u, role), t).1 == t.(users := SetRoles(t.users, u, t.users[u].roles + {role}))
  {
    SetRolesTwice(t.users, u, {}, {});
    assert role in t.users[u].roles ==> t.users[u].roles + {role} == t.users[u].roles;
  }
}
