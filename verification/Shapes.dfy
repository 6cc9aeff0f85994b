// Which tables each group of requests can touch.
module Shapes {
  import opened Common
  import opened Store
  import opened Booking
  import Calendar

  /** The audit log at most grew, by entries about the kind of target f tells. */
  ghost predicate Grew(before: seq<Entry>, after: seq<Entry>, f: Target -> bool)
  {
    before <= after && |after| <= |before| + 1 && forall i | |before| <= i < |after| :: f(after[i].target)
  }

  /** Everything but accounts, listings and the audit log. */
  predicate SameBookings(t: Tables, n: Tables)
  {
    n.reservations == t.reservations && n.payments == t.payments && n.notes == t.notes
    && n.nextReservation == t.nextReservation && n.nextPayment == t.nextPayment
  }

  lemma BookingShape(t: Tables, u: Actor, r: Request)
    requires OnBooking(r) && BookingOutcome(t, u, r).Done?
    ensures var n := BookingOutcome(t, u, r).t;
            n.users == t.users && n.nextUser == t.nextUser && n.cars == t.cars && n.nextCar == t.nextCar
            && n.nextReservation >= t.nextReservation && n.nextPayment >= t.nextPayment
            && Grew(t.audit, n.audit, (x: Target) => x.OnReservation?)
  {
  }

  lemma ListingShape(t: Tables, u: Actor, r: Request)
    requires OnListing(r) && ListingOutcome(t, u, r).Done?
    ensures var n := ListingOutcome(t, u, r).t;
            n.users == t.users && n.nextUser == t.nextUser && n.nextCar >= t.nextCar && SameBookings(t, n)
            && Grew(t.audit, n.audit, (x: Target) => x.OnCar?)
  {
  }

  ghost predicate OnlyAccounts(t: Tables, n: Tables)
  {
    t.users.Keys <= n.users.Keys && n.nextUser >= t.nextUser && n.cars == t.cars && n.nextCar == t.nextCar
    && SameBookings(t, n) && Grew(t.audit, n.audit, (x: Target) => x.OnUser?)
  }

  lemma PhoneShapes(t: Tables, u: Actor, email: string, phone: PhoneInput, allowListed: bool)
    ensures Enrol(t, email, phone, allowListed).Done? ==> OnlyAccounts(t, Enrol(t, email, phone, allowListed).t)
    ensures u.id in t.users && Promote(t, u, phone).Done? ==> OnlyAccounts(t, Promote(t, u, phone).t)
    ensures u.id in t.users && ChangePhone(t, u, phone).Done? ==> OnlyAccounts(t, ChangePhone(t, u, phone).t)
  {
  }

  lemma SuspendShape(t: Tables, u: Actor, id: int, suspended: bool, now: int)
    ensures Suspend(t, u, id, suspended, now).Done? ==> OnlyAccounts(t, Suspend(t, u, id, suspended, now).t)
  {
  }

  lemma RoleShape(t: Tables, u: Actor, id: int, seller: bool, today: string)
    ensures GrantOrRevoke(t, u, id, seller, today).Done? ==> OnlyAccounts(t, GrantOrRevoke(t, u, id, seller, today).t)
  {
  }

  lemma AccountShape(t: Tables, u: Actor, r: Request)
    requires OnAccount(r) && (Anonymous(r) || u.id in t.users) && AccountOutcome(t, u, r).Done?
    ensures OnlyAccounts(t, AccountOutcome(t, u, r).t)
  {
    match r
    case Register(email, phone, allowListed) => PhoneShapes(t, u, email, phone, allowListed);
    case BecomeSeller(phone) => PhoneShapes(t, u, "", phone, false);
    case UpdateMe(phone) => PhoneShapes(t, u, "", phone, false);
    case SuspendUser(id, suspended, now) => SuspendShape(t, u, id, suspended, now);
    case SetSeller(id, seller, today) => RoleShape(t, u, id, seller, Calendar.Format(today));
    case SyncAdmins(admins) =>
  }

  /** Accounts are never deleted, the audit log is never rewritten, and requests that are
      not about reservations leave them, their payments and their notes alone. */
  lemma StepShape(t: Tables, e: Event)
    ensures t.users.Keys <= Commit(t, e).users.Keys && t.audit <= Commit(t, e).audit
    ensures !OnBooking(e.request) ==>
              SameBookings(t, Commit(t, e)) && Grew(t.audit, Commit(t, e).audit, (x: Target) => !x.OnReservation?)
    ensures OnBooking(e.request) ==>
              Commit(t, e).users == t.users && Commit(t, e).cars == t.cars
              && Grew(t.audit, Commit(t, e).audit, (x: Target) => x.OnReservation?)
    ensures OnBooking(e.request) || OnListing(e.request) ==> Commit(t, e).users == t.users
    ensures OnBooking(e.request) || OnListing(e.request)
        ==> Grew(t.audit, Commit(t, e).audit, (x: Target) => !x.OnUser?)
  {
    if Perform(t, e).Done? {
      if OnBooking(e.request) {
        BookingShape(t, e.actor, e.request);
      } else if OnListing(e.request) {
        ListingShape(t, e.actor, e.request);
      } else {
        AccountShape(t, e.actor, e.request);
      }
    }
  }
}
