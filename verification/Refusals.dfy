// When each request succeeds, and that every error it is answered with is true.
module Refusals {
  import opened Common
  import opened Calendar
  import opened Store
  import opened Booking
  import opened Rows
  import opened Lifecycle
  import opened Availability
  import opened Effects

  // ---------- When a request succeeds ----------

  /** The reservation a request is about, other than a new one. */
  predicate About(r: Request, id: int)
  {
    OnBooking(r) && !r.CreateReservation? && r.id == id
  }

  /** The caller is the party the request is for: the buyer cancels and pays, the owner of the
      car accepts and rejects, any administrator confirms and asks for a correction. */
  predicate IsParty(t: Tables, u: Actor, r: Request, id: int)
    requires Joined(t, id)
  {
    (r.CancelReservation? || r.RecordPayment? ==> t.reservations[id].buyer == u.id)
    && (r.AcceptReservation? || r.RejectReservation? ==> t.cars[t.reservations[id].car].owner == u.id)
  }

  predicate HasRole(e: Event)
  {
    (ForBuyers(e.request) ==> Buyer in e.actor.roles)
    && (ForSellers(e.request) ==> Seller in e.actor.roles)
    && (ForAdmins(e.request) ==> Admin in e.actor.roles)
  }

  lemma RoleOrOutcome(t: Tables, e: Event)
    requires OnBooking(e.request) && !e.request.CreateReservation? && e.actor.id in t.users
    ensures Perform(t, e)
         == if HasRole(e) then BookingOutcome(t, e.actor, e.request) else Refused(InsufficientPermissions)
  {
  }

  lemma OutcomeExactly(t: Tables, u: Actor, r: Request, id: int)
    requires RowsOk(t) && About(r, id)
    ensures BookingOutcome(t, u, r).Done? <==>
              id in t.reservations && IsParty(t, u, r, id) && Next(LifeOf(t, id), MoveBy(t, r, id).value).Some?
  {
    CountsPayments(t, id);
    assert PaymentsOf(t.payments, id) != {} <==> PaymentRowOf(t, id).Some?;
  }

  /** A request about a reservation succeeds exactly when the caller has its role and is its
      party, and the automaton allows its move from where the reservation stands. */
  lemma TransitionExactly(t: Tables, e: Event, id: int)
    requires RowsOk(t) && About(e.request, id) && e.actor.id in t.users
    ensures Perform(t, e).Done? <==>
              HasRole(e) && id in t.reservations && IsParty(t, e.actor, e.request, id)
              && Next(LifeOf(t, id), MoveBy(t, e.request, id).value).Some?
  {
    RoleOrOutcome(t, e);
    OutcomeExactly(t, e.actor, e.request, id);
  }

  predicate PatchOk(p: Patch)
  {
    (p.name.Some? || p.photo.Some? || p.price.Some? || p.active.Some?)
    && (p.price.Some? ==> 0 <= p.price.value <= 100_000_000)
  }

  lemma PatchErrorIsNotOk(p: Patch)
    ensures PatchError(p).None? <==> PatchOk(p)
  {
  }

  lemma ListingGuards(t: Tables, e: Event)
    requires OnListing(e.request) && e.actor.id in t.users
    ensures Perform(t, e).Done? <==>
              HasRole(e) && CheckError(e.request).None? && ListingOutcome(t, e.actor, e.request).Done?
  {
  }

  /** A listing is created by any seller at a price from 0 to 100,000,000. It is changed exactly
      when the patch gives something and a price in that range, to a car that is the seller's own
      or by an administrator, and when a seller deactivates it no reservation is left to run. */
  lemma ListingExactly(t: Tables, e: Event)
    requires RowsOk(t) && AllDatesOk(t.reservations) && e.actor.id in t.users
    ensures e.request.CreateCar? ==> (Perform(t, e).Done? <==> HasRole(e) && 0 <= e.request.price <= 100_000_000)
    ensures e.request.PatchCar? ==>
              (Perform(t, e).Done? <==>
                 HasRole(e) && PatchOk(e.request.patch)
                 && e.request.id in t.cars && t.cars[e.request.id].owner == e.actor.id
                 && (e.request.patch.active == Some(false) ==>
                       !CarRunsOn(t.reservations, e.request.id, e.request.today)))
    ensures e.request.AdminPatchCar? ==>
              (Perform(t, e).Done? <==> HasRole(e) && PatchOk(e.request.patch) && e.request.id in t.cars)
  {
    if OnListing(e.request) {
      ListingGuards(t, e);
      if e.request.PatchCar? {
        PatchErrorIsNotOk(e.request.patch);
        FutureCounted(t.reservations, e.request.id, e.request.today);
      } else if e.request.AdminPatchCar? {
        PatchErrorIsNotOk(e.request.patch);
      }
    }
  }

  /** Accounts change exactly for phones that normalise, not empty for a seller; suspensions are
      an administrator's, of another account; the seller role is an administrator's to grant to
      an account with a phone and to revoke from one without reservations left to run. */
  lemma AccountExactly(t: Tables, e: Event)
    requires AllDatesOk(t.reservations) && e.actor.id in t.users
    ensures e.request.BecomeSeller? ==>
              (Perform(t, e).Done? <==> Normalized(e.request.phone).Some? && Normalized(e.request.phone).value != "")
    ensures e.request.UpdateMe? ==>
              (Perform(t, e).Done? <==> Normalized(e.request.phone).Some?
                                        && (Seller in e.actor.roles ==> Normalized(e.request.phone).value != ""))
    ensures e.request.SuspendUser? ==>
              (Perform(t, e).Done? <==> HasRole(e) && e.request.id in t.users && e.request.id != e.actor.id)
    ensures e.request.SetSeller? ==>
              (Perform(t, e).Done? <==>
                 HasRole(e) && e.request.id in t.users
                 && if e.request.seller then t.users[e.request.id].phone != ""
                    else !OwnerRunsOn(t, e.request.id, e.request.today))
  {
    if e.request.SetSeller? {
      FutureOfOwnerCounted(t, e.request.id, e.request.today);
    }
  }

  // ---------- Every error is true ----------

  /** What an error says of a booking request. */
  ghost predicate TrueOfCreation(t: Tables, r: Request, error: Error)
    requires r.CreateReservation?
  {
    match error
    case InvalidStartDate => ParseDate(r.start).None?
    case InvalidEndDate => ParseDate(r.end).None?
    case EndBeforeStart => ParseDate(r.start).Some? && ParseDate(r.end).Some? && !Ordered(r.start, r.end)
    case TooLong =>
      Ordered(r.start, r.end) && DayNumber(ParseDate(r.end).value) - DayNumber(ParseDate(r.start).value) >= 30
    case StartInPast => Ordered(r.start, r.end) && DayNumber(ParseDate(r.start).value) < DayNumber(r.today)
    case CarIdRequired => r.car == 0
    case CarNotFound => r.car !in t.cars
    case CarNotActive => r.car in t.cars && !t.cars[r.car].active
    case AlreadyReserved =>
      Ordered(r.start, r.end)
      && exists day :: TakenOn(t.reservations, r.car, day)
           && DayNumber(ParseDate(r.start).value) <= day <= DayNumber(ParseDate(r.end).value)
    case _ => false
  }

  /** What an error says of a request about a reservation. A stranger to it is told only that
      it is not there. */
  ghost predicate TrueOfTransition(t: Tables, u: Actor, r: Request, id: int, error: Error)
  {
    match error
    case ReservationNotFound => Joined(t, id) ==> !IsParty(t, u, r, id)
    case NotPending =>
      Joined(t, id) && IsParty(t, u, r, id)
      && t.reservations[id].status !in (if r.RecordPayment? then {Pending, Accepted} else {Pending})
      && (r.CancelReservation? || r.RecordPayment? || r.AcceptReservation? || r.RejectReservation?)
    case PaymentRecorded =>
      Joined(t, id) && IsParty(t, u, r, id) && PaymentOf(t, id).Some? && (r.CancelReservation? || r.RecordPayment?)
    case NotAccepted =>
      Joined(t, id) && t.reservations[id].status != Accepted && (r.ConfirmReservation? || r.RequestCorrection?)
    case NoPayment => Joined(t, id) && PaymentOf(t, id).None? && r.ConfirmReservation?
    case PaymentNotPending =>
      Joined(t, id) && (PaymentOf(t, id).Some? ==> PaymentOf(t, id).value.status != PayPending)
      && (r.ConfirmReservation? || r.RequestCorrection?)
    case _ => false
  }

  ghost predicate TrueOfListing(t: Tables, u: Actor, r: Request, error: Error)
  {
    match error
    case NoFields => (r.PatchCar? || r.AdminPatchCar?) && r.patch == Patch(None, None, None, None)
    case InvalidPrice =>
      (r.CreateCar? && !(0 <= r.price <= 100_000_000))
      || ((r.PatchCar? || r.AdminPatchCar?) && r.patch.price.Some? && !(0 <= r.patch.price.value <= 100_000_000))
    case CarNotFound =>
      OnListing(r) && !r.CreateCar?
      && (r.id in t.cars ==> (r.PatchCar? || r.DropCar?) && t.cars[r.id].owner != u.id)
    case HasFutureReservations =>
      r.PatchCar? && r.patch.active == Some(false) && CarRunsOn(t.reservations, r.id, r.today)
    case HasReservations => (r.DropCar? || r.AdminDropCar?) && EverBooked(t.reservations, r.id)
    case _ => false
  }

  ghost predicate TrueOfAccount(t: Tables, u: Actor, r: Request, error: Error)
  {
    match error
    case InvalidPhone => (r.Register? || r.UpdateMe?) && Normalized(r.phone).None?
    case PhoneRequired =>
      (r.BecomeSeller? && (Normalized(r.phone).None? || Normalized(r.phone) == Some("")))
      || (r.UpdateMe? && Normalized(r.phone) == Some("") && Seller in u.roles)
    case CannotSuspendSelf => r.SuspendUser? && r.id == u.id
    case UserNotFound => (r.SuspendUser? || r.SetSeller?) && r.id !in t.users
    case NoPhoneNumber => r.SetSeller? && r.seller && r.id in t.users && t.users[r.id].phone == ""
    case HasFutureReservations => r.SetSeller? && !r.seller && OwnerRunsOn(t, r.id, r.today)
    case _ => false
  }

  /** What an error of a handler says of a request and of the tables it was answered from. */
  ghost predicate HandlerTells(t: Tables, e: Event, error: Error)
  {
    if e.request.CreateReservation? then TrueOfCreation(t, e.request, error)
    else if OnBooking(e.request) then TrueOfTransition(t, e.actor, e.request, e.request.id, error)
    else if OnListing(e.request) then TrueOfListing(t, e.actor, e.request, error)
    else TrueOfAccount(t, e.actor, e.request, error)
  }

  ghost predicate IsTrue(t: Tables, e: Event, error: Error)
  {
    if error == Unauthorized then !e.request.Register? && !e.request.SyncAdmins? && e.actor.id !in t.users
    else if error == InsufficientPermissions then !HasRole(e)
    else HasRole(e) && HandlerTells(t, e, error)
  }

  lemma CreationCheckRefusal(t: Tables, r: Request)
    requires r.CreateReservation? && CheckError(r).Some?
    ensures TrueOfCreation(t, r, CheckError(r).value)
  {
    if DateError(r.start, r.end, r.today).Some? {
      DateErrorIsTrue(t, r);
    }
  }

  lemma CreationOutcomeRefusal(t: Tables, u: Actor, r: Request)
    requires AllDatesOk(t.reservations) && r.CreateReservation? && CheckError(r).None?
    requires BookingOutcome(t, u, r).Refused?
    ensures TrueOfCreation(t, r, BookingOutcome(t, u, r).e)
  {
    DateErrorIsNotRentable(r.start, r.end, r.today);
    CreateRefusal(t, u, r);
  }

  lemma CreationRefusal(t: Tables, u: Actor, r: Request)
    requires AllDatesOk(t.reservations) && r.CreateReservation?
    ensures CheckError(r).Some? ==> TrueOfCreation(t, r, CheckError(r).value)
    ensures CheckError(r).None? && BookingOutcome(t, u, r).Refused? ==> TrueOfCreation(t, r, BookingOutcome(t, u, r).e)
  {
    if CheckError(r).Some? {
      CreationCheckRefusal(t, r);
    } else if BookingOutcome(t, u, r).Refused? {
      CreationOutcomeRefusal(t, u, r);
    }
  }

  lemma DateErrorIsTrue(t: Tables, r: Request)
    requires r.CreateReservation? && DateError(r.start, r.end, r.today).Some?
    ensures TrueOfCreation(t, r, DateError(r.start, r.end, r.today).value)
  {
    if ParseDate(r.start).Some? && ParseDate(r.end).Some? {
      var s, e := ParseDate(r.start).value, ParseDate(r.end).value;
      InstantOrderIsDayOrder(e, s);
      CapIsThirtyInclusiveDays(s, e);
      ParseDateIsCanonical(r.start);
      TextOrderIsDayOrder(s, r.today);
    }
  }

  lemma CreateRefusal(t: Tables, u: Actor, r: Request)
    requires AllDatesOk(t.reservations) && r.CreateReservation? && Ordered(r.start, r.end)
    requires Create(t, u, r.car, r.start, r.end).Refused?
    ensures TrueOfCreation(t, r, Create(t, u, r.car, r.start, r.end).e)
  {
    CountFindsClashes(t.reservations, r.car, r.start, r.end);
    ClashesAreTaken(t.reservations, r.car, r.start, r.end);
  }

  lemma TransitionRefusal(t: Tables, u: Actor, r: Request, id: int)
    requires RowsOk(t) && About(r, id) && BookingOutcome(t, u, r).Refused?
    ensures TrueOfTransition(t, u, r, id, BookingOutcome(t, u, r).e)
  {
    CountsPayments(t, id);
    assert PaymentsOf(t.payments, id) != {} <==> PaymentRowOf(t, id).Some?;
  }

  lemma ListingRefusal(t: Tables, u: Actor, r: Request)
    requires AllDatesOk(t.reservations) && OnListing(r) && ListingOutcome(t, u, r).Refused?
    ensures TrueOfListing(t, u, r, ListingOutcome(t, u, r).e)
  {
    match r
    case PatchCar(id, _, today) => FutureCounted(t.reservations, id, today);
    case DropCar(id) => HistoryCounted(t.reservations, id);
    case AdminDropCar(id) => HistoryCounted(t.reservations, id);
    case _ =>
  }

  lemma ListingCheckRefusal(t: Tables, u: Actor, r: Request)
    requires OnListing(r) && CheckError(r).Some?
    ensures TrueOfListing(t, u, r, CheckError(r).value)
  {
  }

  lemma AccountRefusal(t: Tables, u: Actor, r: Request)
    requires AllDatesOk(t.reservations) && OnAccount(r) && (Anonymous(r) || u.id in t.users)
    requires AccountOutcome(t, u, r).Refused?
    ensures TrueOfAccount(t, u, r, AccountOutcome(t, u, r).e)
  {
    if r.SetSeller? {
      FutureOfOwnerCounted(t, r.id, r.today);
    }
  }

  lemma RoleDecides(t: Tables, e: Event)
    requires Anonymous(e.request) || e.actor.id in t.users
    ensures !HasRole(e) ==> Perform(t, e) == Refused(InsufficientPermissions)
    ensures HasRole(e) && CheckError(e.request).Some? ==> Perform(t, e) == Refused(CheckError(e.request).value)
    ensures HasRole(e) && CheckError(e.request).None? ==>
              Perform(t, e) == if OnBooking(e.request) then BookingOutcome(t, e.actor, e.request)
                               else if OnListing(e.request) then ListingOutcome(t, e.actor, e.request)
                               else AccountOutcome(t, e.actor, e.request)
  {
  }

  lemma RefusalTells(t: Tables, e: Event)
    requires RowsOk(t) && AllDatesOk(t.reservations) && Perform(t, e).Refused? && HasRole(e)
    requires Anonymous(e.request) || e.actor.id in t.users
    ensures HandlerTells(t, e, Perform(t, e).e)
  {
    RoleDecides(t, e);
    if e.request.CreateReservation? {
      CreationRefusal(t, e.actor, e.request);
    } else if OnBooking(e.request) {
      TransitionRefusal(t, e.actor, e.request, e.request.id);
    } else if OnListing(e.request) {
      if CheckError(e.request).Some? {
        ListingCheckRefusal(t, e.actor, e.request);
      } else {
        ListingRefusal(t, e.actor, e.request);
      }
    } else {
      AccountRefusal(t, e.actor, e.request);
    }
  }

  lemma OtherErrors(t: Tables, e: Event)
    ensures !HandlerTells(t, e, Unauthorized) && !HandlerTells(t, e, InsufficientPermissions)
  {
  }

  /** Every error a request is answered with is true of it and of the tables: dates and days are
      as it says, the row is missing or not the caller's, the status, the payment and the account
      are as it says. */
  lemma ErrorsAreTrue(t: Tables, e: Event)
    requires RowsOk(t) && AllDatesOk(t.reservations) && Perform(t, e).Refused?
    ensures IsTrue(t, e, Perform(t, e).e)
  {
    if Anonymous(e.request) || e.actor.id in t.users {
      if HasRole(e) {
        RefusalTells(t, e);
        OtherErrors(t, e);
      } else {
        RoleDecides(t, e);
      }
    }
  }

  // ---------- What is not one's own ----------

  /** The same request about another row. */
  function Instead(r: Request, id: int): Request
    requires r.CancelReservation? || r.RecordPayment? || r.AcceptReservation? || r.RejectReservation?
             || r.PatchCar? || r.DropCar?
  {
    match r
    case CancelReservation(_) => CancelReservation(id)
    case RecordPayment(_, paidBy, proof) => RecordPayment(id, paidBy, proof)
    case AcceptReservation(_) => AcceptReservation(id)
    case RejectReservation(_) => RejectReservation(id)
    case PatchCar(_, patch, today) => PatchCar(id, patch, today)
    case DropCar(_) => DropCar(id)
  }

  /** The row the request is about is there and is not the caller's. */
  predicate IsForeign(t: Tables, u: Actor, r: Request)
  {
    if r.PatchCar? || r.DropCar? then r.id in t.cars && t.cars[r.id].owner != u.id
    else OnBooking(r) && !r.CreateReservation? && Joined(t, r.id) && !IsParty(t, u, r, r.id)
  }

  /** A buyer or a seller who touches what is not theirs is answered as if it did not exist, with
      the same error and no change. */
  lemma ForeignIsMissing(t: Tables, e: Event, missing: int)
    requires IsForeign(t, e.actor, e.request)
    requires missing !in t.reservations && missing !in t.cars
    ensures Perform(t, e).Refused? && Perform(t, e) == Perform(t, Event(e.actor, Instead(e.request, missing)))
  {
  }
}
