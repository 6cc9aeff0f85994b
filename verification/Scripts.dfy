// The handlers statement by statement: what each runs inside its transaction, in order,
// and what it decides from each reply. Run to the end without interruption a script is
// the atomic step of Booking.
module Scripts {
  import opened Common
  import opened Calendar
  import opened Store
  import opened Booking

  /** A transaction callback: return nil, return an error, run a statement and go on from
      its reply, or run one whose reply is not looked at. */
  datatype Script =
    | Finish
    | Fail(e: Error)
    | Do(st: Stmt, next: Reply -> Script)
    | Then(st: Stmt, rest: Script)

  datatype Result = Ended(o: Outcome) | Unfinished

  /** Running on private tables, for at most fuel statements. */
  function Run(p: Script, t: Tables, fuel: nat): Result
    decreases fuel
  {
    match p
    case Finish => Ended(Done(t))
    case Fail(e) => Ended(Refused(e))
    case Do(st, next) => if fuel == 0 then Unfinished else Run(next(Exec(st, t).0), Exec(st, t).1, fuel - 1)
    case Then(st, rest) => if fuel == 0 then Unfinished else Run(rest, Exec(st, t).1, fuel - 1)
  }

  /** notifyUsers after dropping repeats: one insert per recipient. */
  function Notify(ids: seq<int>, kind: Kind, reservation: int): Script
  {
    if ids == [] then Finish
    else Then(InsertNote(Note(ids[0], kind, reservation)), Notify(ids[1..], kind, reservation))
  }

  function NotifyAdminsAnd(others: seq<int>, kind: Kind, reservation: int): Script
  {
    Do(SelectAdmins, (r: Reply) => if r.Ids? then Notify(Dedup(r.ids + others), kind, reservation)
       else Fail(ServerError))
  }

  function CreateScript(u: Actor, car: int, start: string, end: string): Script
  {
    Do(SelectCar(car, None), (c: Reply) =>
      if !c.CarRow? then Fail(CarNotFound) else if !c.car.active then Fail(CarNotActive) else
    Do(CountOverlap(car, start, end), (n: Reply) =>
      if !n.Count? then Fail(ServerError) else if n.n > 0 then Fail(AlreadyReserved) else
    Do(InsertReservation(Reservation(u.id, car, start, end, Pending)), (i: Reply) =>
      if !i.NewId? then Fail(ServerError) else NotifyAdminsAnd([c.car.owner], NotifyRequested, i.id))))
  }

  function CancelScript(u: Actor, id: int): Script
  {
    Do(SelectReservationJoinCar(id), (r: Reply) =>
      if !r.ReservationRow? || r.reservation.buyer != u.id then Fail(ReservationNotFound)
      else if r.reservation.status != Pending then Fail(NotPending) else
    Do(CountPayments(id), (n: Reply) =>
      if !n.Count? then Fail(ServerError) else if n.n > 0 then Fail(PaymentRecorded) else
    Then(UpdateOwnStatus(id, u.id, Cancelled),
    Then(InsertAudit(Entry(u.id, AuditCancel, OnReservation(id))),
    Notify([r.owner], NotifyCancelled, id)))))
  }

  function AcceptScript(u: Actor, id: int): Script
  {
    Do(SelectReservationJoinCar(id), (r: Reply) =>
      if !r.ReservationRow? || r.owner != u.id then Fail(ReservationNotFound)
      else if r.reservation.status != Pending then Fail(NotPending) else
    Then(UpdateStatus(id, Accepted),
    Then(InsertAudit(Entry(u.id, AuditAccept, OnReservation(id))),
    Notify([r.reservation.buyer], NotifyAccepted, id))))
  }

  function RejectScript(u: Actor, id: int): Script
  {
    Do(SelectReservationJoinCar(id), (r: Reply) =>
      if !r.ReservationRow? || r.owner != u.id then Fail(ReservationNotFound)
      else if r.reservation.status != Pending then Fail(NotPending) else
    Then(MovePayments(id, PayPending, PayRejected),
    Then(UpdateStatus(id, Rejected),
    Then(InsertAudit(Entry(u.id, AuditReject, OnReservation(id))),
    NotifyAdminsAnd([r.reservation.buyer], NotifyRejected, id)))))
  }

  function ConfirmScript(u: Actor, id: int): Script
  {
    Do(SelectReservationJoinCar(id), (r: Reply) =>
      if !r.ReservationRow? then Fail(ReservationNotFound)
      else if r.reservation.status != Accepted then Fail(NotAccepted) else
    Do(SelectPayment(id), (p: Reply) =>
      if !p.PaymentRow? then Fail(NoPayment) else if p.payment.status != PayPending then Fail(PaymentNotPending) else
    Then(MovePayments(id, PayPending, PayApproved),
    Then(UpdateStatus(id, Confirmed),
    Then(InsertAudit(Entry(u.id, AuditConfirm, OnReservation(id))),
    NotifyAdminsAnd([r.reservation.buyer, r.owner], NotifyConfirmed, id))))))
  }

  function CorrectScript(u: Actor, id: int): Script
  {
    Do(SelectReservation(id), (r: Reply) =>
      if !r.BareReservation? then Fail(ReservationNotFound)
      else if r.reservation.status != Accepted then Fail(NotAccepted) else
    Do(MovePayments(id, PayPending, PayRejected), (n: Reply) =>
      if !n.Affected? then Fail(ServerError) else if n.n == 0 then Fail(PaymentNotPending) else
    Then(InsertAudit(Entry(u.id, AuditRequestCorrection, OnReservation(id))),
    Notify([r.reservation.buyer], NotifyCorrectionRequested, id))))
  }

  function PayScript(u: Actor, id: int, paidBy: PayMethod, proof: string): Script
  {
    Do(SelectReservation(id), (r: Reply) =>
      if !r.BareReservation? || r.reservation.buyer != u.id then Fail(ReservationNotFound)
      else if r.reservation.status != Pending && r.reservation.status != Accepted then Fail(NotPending) else
    Do(SelectPayment(id), (p: Reply) =>
      if p.PaymentRow? then
        if p.payment.status == PayRejected && r.reservation.status == Accepted then
          Then(ResubmitPayment(p.id, paidBy, proof), NotifyAdminsAnd([], NotifyCorrectionSubmitted, id))
        else Fail(PaymentRecorded)
      else
        Do(InsertPayment(id, paidBy, proof), (i: Reply) => if i.UniqueViolation? then Fail(PaymentRecorded)
           else Finish)))
  }

  function PatchScript(id: int, p: Patch, owner: Option<int>, today: Option<string>, last: Script): Script
  {
    Do(SelectCar(id, owner), (c: Reply) =>
      if !c.CarRow? then Fail(CarNotFound)
      else
        var n := Patched(c.car, p);
        var update := Do(UpdateCar(id, owner, n.name, n.photo, n.price, n.active), (r: Reply) =>
          if r.Affected? && r.n > 0 then last else Fail(CarNotFound));
        if today.Some? && p.active == Some(false) then
          Do(CountFuture(id, today.value), (r: Reply) =>
            if !r.Count? then Fail(ServerError) else if r.n > 0 then Fail(HasFutureReservations) else update)
        else update)
  }

  function DropScript(id: int, owner: Option<int>, last: Script): Script
  {
    Do(SelectCar(id, None), (c: Reply) =>
      if !c.CarRow? || (owner.Some? && c.car.owner != owner.value) then Fail(CarNotFound) else
    Do(CountHistory(id), (n: Reply) =>
      if !n.Count? then Fail(ServerError) else if n.n > 0 then Fail(HasReservations) else
    Then(DeleteCar(id, owner), last)))
  }

  /** One INSERT per role. */
  function GrantAll(u: int, roles: seq<Role>): Script
  {
    if roles == [] then Finish else Then(InsertRole(u, roles[0]), GrantAll(u, roles[1..]))
  }

  function RegisterScript(email: string, phone: string, allowListed: bool): Script
  {
    Do(InsertUser(email, phone), (i: Reply) =>
      if !i.NewId? then Finish
      else GrantAll(i.id, [Buyer] + (if phone != "" then [Seller] else []) + (if allowListed then [Admin] else [])))
  }

  function PromoteScript(u: Actor, phone: string): Script
  {
    Then(SetPhone(u.id, phone), if Seller in u.roles then Finish else Then(InsertRole(u.id, Seller), Finish))
  }

  function SuspendScript(u: Actor, id: int, suspended: bool, now: int): Script
  {
    Do(SelectUser(id), (r: Reply) =>
      if !r.UserRow? then Fail(UserNotFound)
      else if suspended == r.user.suspendedAt.Some? then Finish else
    Then(SetSuspended(id, if suspended then Some(now) else None),
    Then(InsertAudit(Entry(u.id, if suspended then AuditSuspend else AuditUnsuspend, OnUser(id))), Finish)))
  }

  /** The role row, and an audit entry only when it changed. */
  function RoleChange(u: Actor, id: int, seller: bool): Script
  {
    Do(if seller then InsertRole(id, Seller) else DeleteRole(id, Seller), (n: Reply) =>
      if n.Affected? && n.n > 0
      then Then(InsertAudit(Entry(u.id, if seller then AuditGrantSeller else AuditRevokeSeller, OnUser(id))), Finish)
      else Finish)
  }

  function SetSellerScript(u: Actor, id: int, seller: bool, today: string): Script
  {
    Do(SelectUser(id), (r: Reply) =>
      if !r.UserRow? then Fail(UserNotFound)
      else if seller then
        if r.user.phone == "" then Fail(NoPhoneNumber) else RoleChange(u, id, seller)
      else
        Do(CountFutureOfOwner(id, today), (n: Reply) =>
          if !n.Count? then Fail(ServerError) else if n.n > 0 then Fail(HasFutureReservations)
          else RoleChange(u, id, seller)))
  }

  /** The statements of an event, after the checks made before the transaction. */
  function ScriptOf(e: Event): Script
  {
    var u := e.actor;
    if EarlyError(e).Some? then Fail(EarlyError(e).value)
    else
      match e.request
      case Register(email, phone, allowListed) =>
        (match Normalized(phone) case None => Fail(InvalidPhone) case Some(p) => RegisterScript(email, p, allowListed))
      case BecomeSeller(phone) =>
        (match Normalized(phone)
         case None => Fail(PhoneRequired)
         case Some(p) => if p == "" then Fail(PhoneRequired) else PromoteScript(u, p))
      case UpdateMe(phone) =>
        (match Normalized(phone)
         case None => Fail(InvalidPhone)
         case Some(p) => if Seller in u.roles && p == "" then Fail(PhoneRequired) else Then(SetPhone(u.id, p), Finish))
      case SuspendUser(id, suspended, now) => if u.id == id then Fail(CannotSuspendSelf)
        else SuspendScript(u, id, suspended, now)
      case SetSeller(id, seller, today) => SetSellerScript(u, id, seller, Format(today))
      case SyncAdmins(admins) => Then(SetAdmins(admins), Finish)
      case CreateCar(name, photo, price) => Then(InsertCar(Car(u.id, name, photo, price, true)), Finish)
      case PatchCar(id, patch, today) => PatchScript(id, patch, Some(u.id), Some(Format(today)), Finish)
      case DropCar(id) => DropScript(id, Some(u.id), Finish)
      case AdminPatchCar(id, patch) =>
        PatchScript(id, patch, None, None, Then(InsertAudit(Entry(u.id, AuditCarUpdate, OnCar(id))), Finish))
      case AdminDropCar(id) => DropScript(id, None, Then(InsertAudit(Entry(u.id, AuditCarDelete, OnCar(id))), Finish))
      case CreateReservation(car, start, end, _) => CreateScript(u, car, start, end)
      case CancelReservation(id) => CancelScript(u, id)
      case RecordPayment(id, paidBy, proof) => PayScript(u, id, paidBy, proof)
      case AcceptReservation(id) => AcceptScript(u, id)
      case RejectReservation(id) => RejectScript(u, id)
      case ConfirmReservation(id) => ConfirmScript(u, id)
      case RequestCorrection(id) => CorrectScript(u, id)
  }
}
