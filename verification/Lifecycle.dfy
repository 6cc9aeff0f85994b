// One reservation and its payment as a small automaton: every run of the whole system,
// seen from one reservation id, is a run of the automaton.
module Lifecycle {
  import opened Common
  import opened Store
  import opened Booking
  import opened Shapes
  import opened Rows

  datatype Life = Unbooked | Booked(status: Status, pay: Option<PayStatus>)

  datatype Move =
    | MoveCreate | MoveCancel | MoveAccept | MoveReject | MovePay | MoveResubmit | MoveConfirm | MoveCorrect

  /** The automaton: where a move leads, when it is possible. */
  function Next(l: Life, m: Move): Option<Life>
  {
    match l
    case Unbooked => if m.MoveCreate? then Some(Booked(Pending, None)) else None
    case Booked(Pending, pay) =>
      (match m
       case MoveCancel => if pay.None? then Some(Booked(Cancelled, None)) else None
       case MoveAccept => Some(Booked(Accepted, pay))
       case MoveReject => Some(Booked(Rejected, if pay == Some(PayPending) then Some(PayRejected) else pay))
       case MovePay => if pay.None? then Some(Booked(Pending, Some(PayPending))) else None
       case _ => None)
    case Booked(Accepted, pay) =>
      (match m
       case MovePay => if pay.None? then Some(Booked(Accepted, Some(PayPending))) else None
       case MoveResubmit => if pay == Some(PayRejected) then Some(Booked(Accepted, Some(PayPending))) else None
       case MoveConfirm => if pay == Some(PayPending) then Some(Booked(Confirmed, Some(PayApproved))) else None
       case MoveCorrect => if pay == Some(PayPending) then Some(Booked(Accepted, Some(PayRejected))) else None
       case _ => None)
    case Booked(_, _) => None
  }

  function PaymentOf(t: Tables, id: int): Option<Payment>
  {
    match PaymentRowOf(t, id) case Some(p) => Some(t.payments[p]) case None => None
  }

  function LifeOf(t: Tables, id: int): Life
  {
    if id !in t.reservations then Unbooked
    else Booked(t.reservations[id].status, match PaymentOf(t, id) case Some(p) => Some(p.status) case None => None)
  }

  /** The move a successful request makes on a reservation, if it is about it. */
  function MoveBy(t: Tables, request: Request, id: int): Option<Move>
  {
    match request
    case CreateReservation(_, _, _, _) => if id == t.nextReservation then Some(MoveCreate) else None
    case CancelReservation(r) => if r == id then Some(MoveCancel) else None
    case RecordPayment(r, _, _) =>
      if r != id then None else if PaymentRowOf(t, id).Some? then Some(MoveResubmit) else Some(MovePay)
    case AcceptReservation(r) => if r == id then Some(MoveAccept) else None
    case RejectReservation(r) => if r == id then Some(MoveReject) else None
    case ConfirmReservation(r) => if r == id then Some(MoveConfirm) else None
    case RequestCorrection(r) => if r == id then Some(MoveCorrect) else None
    case _ => None
  }

  /** The move a request makes on a reservation; none when it is refused. */
  function MoveOf(t: Tables, e: Event, id: int): Option<Move>
  {
    if Perform(t, e).Refused? then None else MoveBy(t, e.request, id)
  }

  // ---------- The payment row of a reservation ----------

  lemma RowFound(t: Tables, id: int, p: int)
    requires PaymentsOk(t.payments, t.nextPayment, t.reservations.Keys) && p in t.payments
    requires t.payments[p].reservation == id
    ensures PaymentRowOf(t, id) == Some(p)
  {
  }

  /** Tables whose payment rows for id are the same rows find the same one. */
  lemma SameRow(t: Tables, n: Tables, id: int)
    requires PaymentsOk(t.payments, t.nextPayment, t.reservations.Keys)
    requires PaymentsOk(n.payments, n.nextPayment, n.reservations.Keys)
    requires forall p ::
               (p in t.payments && t.payments[p].reservation == id)
               <==> (p in n.payments && n.payments[p].reservation == id)
    ensures PaymentRowOf(n, id) == PaymentRowOf(t, id)
  {
    match PaymentRowOf(t, id)
    case Some(p) => RowFound(n, id, p);
    case None =>
      if PaymentRowOf(n, id).Some? {
        RowFound(t, id, PaymentRowOf(n, id).value);
      }
  }

  /** A payment update by reservation and status, seen from any reservation. */
  lemma MovedPayment(t: Tables, n: Tables, r: int, from: PayStatus, to: PayStatus, id: int)
    requires PaymentsOk(t.payments, t.nextPayment, t.reservations.Keys)
    requires PaymentsOk(n.payments, n.nextPayment, n.reservations.Keys)
    requires n.payments == PaymentsMoved(t.payments, r, from, to)
    ensures PaymentOf(n, id)
         == if r == id && PaymentOf(t, id).Some? && PaymentOf(t, id).value.status == from
            then Some(PaymentOf(t, id).value.(status := to)) else PaymentOf(t, id)
  {
    SameRow(t, n, id);
  }

  lemma CountsPayments(t: Tables, id: int)
    requires PaymentsOk(t.payments, t.nextPayment, t.reservations.Keys)
    ensures |PaymentsOf(t.payments, id)| > 0 <==> PaymentRowOf(t, id).Some?
    ensures |set p | p in t.payments && t.payments[p].reservation == id && t.payments[p].status == PayPending| > 0
            <==> PaymentOf(t, id).Some? && PaymentOf(t, id).value.status == PayPending
  {
    var pending := set p | p in t.payments && t.payments[p].reservation == id && t.payments[p].status == PayPending;
    match PaymentRowOf(t, id)
    case Some(p) =>
      assert p in PaymentsOf(t.payments, id);
      if t.payments[p].status == PayPending {
        assert p in pending;
      } else {
        forall q | q in pending ensures false { RowFound(t, id, q); }
        assert pending == {};
      }
    case None =>
      forall q | q in PaymentsOf(t.payments, id) ensures false { RowFound(t, id, q); }
      assert PaymentsOf(t.payments, id) == {} && pending <= PaymentsOf(t.payments, id);
  }

  // ---------- Each request is a move ----------

  /** Reservation id before and after a request that makes move m on it, or none: without a
      move neither its row nor its payment changes, and a move changes only the status of
      the row. */
  ghost predicate IsMove(t: Tables, n: Tables, id: int, m: Option<Move>)
  {
    && (id in t.reservations ==> id in n.reservations)
    && (id in t.reservations ==> n.reservations[id] == t.reservations[id].(status := n.reservations[id].status))
    && (m.None? ==> LifeOf(n, id) == LifeOf(t, id) && PaymentOf(n, id) == PaymentOf(t, id))
    && (m.Some? ==> Next(LifeOf(t, id), m.value) == Some(LifeOf(n, id)))
  }

  function When(b: bool, m: Move): Option<Move>
  {
    if b then Some(m) else None
  }

  ghost predicate PaysOk(t: Tables)
  {
    PaymentsOk(t.payments, t.nextPayment, t.reservations.Keys)
  }

  /** A request that moves reservation r to a status and leaves it with a payment. */
  lemma StatusIsMove(t: Tables, n: Tables, r: int, status: Status, pay: Option<Payment>, m: Move, id: int)
    requires r in t.reservations && n.reservations == SetStatus(t.reservations, r, status)
    requires PaymentOf(n, id) == if id == r then pay else PaymentOf(t, id)
    requires Next(LifeOf(t, r), m) == Some(Booked(status, if pay.Some? then Some(pay.value.status) else None))
    ensures IsMove(t, n, id, When(r == id, m))
  {
  }

  lemma NoStatusChange(rs: map<int, Reservation>, r: int)
    requires r in rs
    ensures SetStatus(rs, r, rs[r].status) == rs
  {
  }

  /** What each handler does to a reservation, as a move. */
  ghost predicate HandlerMoves(t: Tables, u: Actor, request: Request, id: int)
    requires OnBooking(request)
  {
    BookingOutcome(t, u, request).Done? ==> IsMove(t, BookingOutcome(t, u, request).t, id, MoveBy(t, request, id))
  }

  lemma CreateIsMove(t: Tables, u: Actor, request: Request, id: int)
    requires RowsOk(t) && request.CreateReservation?
    ensures HandlerMoves(t, u, request, id)
  {
    if BookingOutcome(t, u, request).Done? {
      NewRowIsUnpaid(t, id);
    }
  }

  lemma NewRowIsUnpaid(t: Tables, id: int)
    requires RowsOk(t)
    ensures id == t.nextReservation ==> id !in t.reservations && PaymentOf(t, id).None?
  {
  }

  lemma CancelIsMove(t: Tables, u: Actor, request: Request, id: int)
    requires PaysOk(t) && request.CancelReservation?
    ensures HandlerMoves(t, u, request, id)
  {
    var r := request.id;
    if Cancel(t, u, r).Done? {
      CountsPayments(t, r);
      StatusIsMove(t, Cancel(t, u, r).t, r, Cancelled, None, MoveCancel, id);
    }
  }

  lemma AcceptIsMove(t: Tables, u: Actor, request: Request, id: int)
    requires PaysOk(t) && request.AcceptReservation?
    ensures HandlerMoves(t, u, request, id)
  {
    var r := request.id;
    if Accept(t, u, r).Done? {
      StatusIsMove(t, Accept(t, u, r).t, r, Accepted, PaymentOf(t, r), MoveAccept, id);
    }
  }

  lemma RejectIsMove(t: Tables, u: Actor, request: Request, id: int)
    requires PaysOk(t) && request.RejectReservation?
    ensures HandlerMoves(t, u, request, id)
  {
    var r := request.id;
    if Reject(t, u, r).Done? {
      var n := Reject(t, u, r).t;
      MovedRows(t.payments, r, PayPending, PayRejected, t.nextPayment, t.reservations.Keys);
      MovedPayment(t, n, r, PayPending, PayRejected, id);
      MovedPayment(t, n, r, PayPending, PayRejected, r);
      StatusIsMove(t, n, r, Rejected, PaymentOf(n, r), MoveReject, id);
    }
  }

  lemma ConfirmIsMove(t: Tables, u: Actor, request: Request, id: int)
    requires PaysOk(t) && request.ConfirmReservation?
    ensures HandlerMoves(t, u, request, id)
  {
    var r := request.id;
    if Confirm(t, u, r).Done? {
      var n := Confirm(t, u, r).t;
      MovedRows(t.payments, r, PayPending, PayApproved, t.nextPayment, t.reservations.Keys);
      MovedPayment(t, n, r, PayPending, PayApproved, id);
      MovedPayment(t, n, r, PayPending, PayApproved, r);
      StatusIsMove(t, n, r, Confirmed, PaymentOf(n, r), MoveConfirm, id);
    }
  }

  lemma CorrectIsMove(t: Tables, u: Actor, request: Request, id: int)
    requires PaysOk(t) && request.RequestCorrection?
    ensures HandlerMoves(t, u, request, id)
  {
    var r := request.id;
    if Correct(t, u, r).Done? {
      var n := Correct(t, u, r).t;
      MovedRows(t.payments, r, PayPending, PayRejected, t.nextPayment, t.reservations.Keys);
      MovedPayment(t, n, r, PayPending, PayRejected, id);
      MovedPayment(t, n, r, PayPending, PayRejected, r);
      CountsPayments(t, r);
      NoStatusChange(t.reservations, r);
      StatusIsMove(t, n, r, Accepted, PaymentOf(n, r), MoveCorrect, id);
    }
  }

  /** Writing the payment row of r, new or not, changes what r has and nothing else. */
  lemma WrittenPayment(t: Tables, n: Tables, r: int, p: int, pay: Payment, id: int)
    requires PaysOk(t) && PaysOk(n) && n.payments == t.payments[p := pay] && pay.reservation == r
    requires p in t.payments ==> t.payments[p].reservation == r
    ensures PaymentOf(n, id) == if id == r then Some(pay) else PaymentOf(t, id)
  {
    if id == r {
      RowFound(n, id, p);
    } else {
      SameRow(t, n, id);
      assert PaymentRowOf(t, id).Some? ==> PaymentRowOf(t, id).value != p;
    }
  }

  lemma PayIsMove(t: Tables, u: Actor, request: Request, id: int)
    requires RowsOk(t) && request.RecordPayment?
    ensures HandlerMoves(t, u, request, id)
  {
    var r, o := request.id, Pay(t, u, request.id, request.paidBy, request.proof);
    if o.Done? {
      var n, row := o.t, PaymentRowOf(t, r);
      var p := if row.Some? then row.value else t.nextPayment;
      PayRows(t, u, r, request.paidBy, request.proof);
      WrittenPayment(t, n, r, p, n.payments[p], id);
      NoStatusChange(t.reservations, r);
      StatusIsMove(t, n, r, t.reservations[r].status, Some(n.payments[p]),
                   if row.Some? then MoveResubmit else MovePay, id);
    }
  }

  lemma OtherIsNoMove(t: Tables, n: Tables, id: int)
    requires RowsOk(t) && SameBookings(t, n)
    ensures IsMove(t, n, id, None)
  {
  }

  /** Every request makes on every reservation the move MoveOf says, and that move is one
      the automaton allows there. */
  lemma StepIsMove(t: Tables, e: Event, id: int)
    requires RowsOk(t)
    ensures RowsOk(Commit(t, e)) && IsMove(t, Commit(t, e), id, MoveOf(t, e, id))
  {
    StepRowsOk(t, e);
    if Perform(t, e).Done? && OnBooking(e.request) {
      BookingIsMove(t, e.actor, e.request, id);
    } else {
      StepShape(t, e);
      OtherIsNoMove(t, Commit(t, e), id);
    }
  }

  lemma BookingIsMove(t: Tables, u: Actor, request: Request, id: int)
    requires RowsOk(t) && OnBooking(request)
    ensures HandlerMoves(t, u, request, id)
  {
    match request
    case CreateReservation(_, _, _, _) => CreateIsMove(t, u, request, id);
    case CancelReservation(_) => CancelIsMove(t, u, request, id);
    case AcceptReservation(_) => AcceptIsMove(t, u, request, id);
    case RejectReservation(_) => RejectIsMove(t, u, request, id);
    case ConfirmReservation(_) => ConfirmIsMove(t, u, request, id);
    case RequestCorrection(_) => CorrectIsMove(t, u, request, id);
    case RecordPayment(_, _, _) => PayIsMove(t, u, request, id);
  }

  // ---------- Runs of the automaton ----------

  /** The moves a run makes on a reservation id. */
  function Moves(events: seq<Event>, id: int): seq<Move>
  {
    if events == [] then []
    else
      var front := events[..|events| - 1];
      match MoveOf(After(front), events[|events| - 1], id)
      case Some(m) => Moves(front, id) + [m]
      case None => Moves(front, id)
  }

  /** Where the automaton is after these moves; None when one of them was not possible. */
  function LifeAfter(moves: seq<Move>): Option<Life>
  {
    if moves == [] then Some(Unbooked)
    else
      match LifeAfter(moves[..|moves| - 1])
      case Some(l) => Next(l, moves[|moves| - 1])
      case None => None
  }

  /** Seen from one reservation, any run of the whole system is a run of the automaton. */
  lemma {:induction false} RunsProject(events: seq<Event>, id: int)
    ensures LifeAfter(Moves(events, id)) == Some(LifeOf(After(events), id))
  {
    if events == [] {
    } else {
      var front := events[..|events| - 1];
      RunsProject(front, id);
      AfterRowsOk(front);
      StepIsMove(After(front), events[|events| - 1], id);
      var m := MoveOf(After(front), events[|events| - 1], id);
      if m.Some? {
        assert Moves(events, id)[..|Moves(front, id)|] == Moves(front, id);
      }
    }
  }

  /** The nine combinations of a reservation's status and its payment's. */
  predicate Coupled(status: Status, pay: Option<PayStatus>)
  {
    match status
    case Pending => pay != Some(PayApproved) && pay != Some(PayRejected)
    case Accepted => pay != Some(PayApproved)
    case Confirmed => pay == Some(PayApproved)
    case Rejected => pay.None? || pay == Some(PayRejected)
    case Cancelled => pay.None?
  }

  lemma {:induction false} LivesAreCoupled(moves: seq<Move>)
    ensures LifeAfter(moves).Some? && LifeAfter(moves).value.Booked? ==>
              Coupled(LifeAfter(moves).value.status, LifeAfter(moves).value.pay)
  {
    if moves != [] {
      LivesAreCoupled(moves[..|moves| - 1]);
    }
  }

  /** In every reachable state a reservation and its payment are in one of the nine
      combinations; so a payment is approved exactly when its reservation is confirmed. */
  lemma {:induction false} StatusesAreCoupled(events: seq<Event>, id: int)
    requires id in After(events).reservations
    ensures LifeOf(After(events), id).Booked?
    ensures Coupled(LifeOf(After(events), id).status, LifeOf(After(events), id).pay)
    ensures LifeOf(After(events), id).pay == Some(PayApproved) <==> After(events).reservations[id].status == Confirmed
  {
    RunsProject(events, id);
    LivesAreCoupled(Moves(events, id));
  }

  predicate Terminal(s: Status)
  {
    s == Confirmed || s == Rejected || s == Cancelled
  }

  /** The reservation's row and payment are the same in both. */
  predicate Unchanged(t: Tables, n: Tables, id: int)
    requires id in t.reservations
  {
    id in n.reservations && n.reservations[id] == t.reservations[id] && PaymentOf(n, id) == PaymentOf(t, id)
  }

  lemma TerminalStays(t: Tables, n: Tables, id: int, m: Option<Move>)
    requires IsMove(t, n, id, m) && id in t.reservations && Terminal(t.reservations[id].status)
    ensures Unchanged(t, n, id)
  {
  }

  lemma TerminalStep(t: Tables, e: Event, id: int)
    requires RowsOk(t) && id in t.reservations && Terminal(t.reservations[id].status)
    ensures Unchanged(t, Commit(t, e), id)
  {
    StepIsMove(t, e, id);
    TerminalStays(t, Commit(t, e), id, MoveOf(t, e, id));
  }

  lemma AfterMore(events: seq<Event>, more: seq<Event>)
    requires more != []
    ensures After(events + more) == Commit(After(events + more[..|more| - 1]), more[|more| - 1])
  {
    assert (events + more)[..|events + more| - 1] == events + more[..|more| - 1];
  }

  /** After a terminal status neither the reservation's row nor its payment ever changes. */
  lemma {:induction false} TerminalIsFrozen(events: seq<Event>, more: seq<Event>, id: int)
    requires id in After(events).reservations && Terminal(After(events).reservations[id].status)
    ensures Unchanged(After(events), After(events + more), id)
  {
    if more == [] {
      assert events + more == events;
    } else {
      var front := more[..|more| - 1];
      TerminalIsFrozen(events, front, id);
      AfterMore(events, more);
      AfterRowsOk(events + front);
      TerminalStep(After(events + front), more[|more| - 1], id);
    }
  }

  predicate ChangesStatus(t: Tables, n: Tables, id: int)
  {
    id in t.reservations && id in n.reservations && t.reservations[id].status != n.reservations[id].status
  }

  /** How often a run has changed the status of a reservation. */
  function StatusChanges(events: seq<Event>, id: int): nat
  {
    if events == [] then 0
    else
      var t, n := After(events[..|events| - 1]), After(events);
      StatusChanges(events[..|events| - 1], id)
      + if ChangesStatus(t, n, id) then 1 else 0
  }

  function Rank(l: Life): nat
  {
    if l.Unbooked? || l.status == Pending then 0 else if l.status == Confirmed then 2 else 1
  }

  lemma RankCounts(t: Tables, n: Tables, id: int, m: Option<Move>)
    requires IsMove(t, n, id, m)
    ensures Rank(LifeOf(n, id)) == Rank(LifeOf(t, id)) + if ChangesStatus(t, n, id) then 1 else 0
  {
  }

  /** No reservation changes status more than twice, and one that does is confirmed. */
  lemma {:induction false} AtMostTwoChanges(events: seq<Event>, id: int)
    ensures StatusChanges(events, id) == Rank(LifeOf(After(events), id)) <= 2
  {
    if events != [] {
      var front := events[..|events| - 1];
      AtMostTwoChanges(front, id);
      AfterRowsOk(front);
      StepIsMove(After(front), events[|events| - 1], id);
      RankCounts(After(front), After(events), id, MoveOf(After(front), events[|events| - 1], id));
    }
  }
}
