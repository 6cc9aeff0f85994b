// What each request writes, field by field, and what it leaves: accounts, cars, payments. And
// what runs keep because of it.
module Effects {
  import opened Common
  import opened Calendar
  import opened Store
  import opened Booking
  import opened Shapes
  import opened Rows
  import opened Lifecycle

  // ---------- Roles ----------

  predicate ForBuyers(r: Request)
  {
    r.CreateReservation? || r.CancelReservation? || r.RecordPayment?
  }

  predicate ForSellers(r: Request)
  {
    r.CreateCar? || r.PatchCar? || r.DropCar? || r.AcceptReservation? || r.RejectReservation?
  }

  predicate ForAdmins(r: Request)
  {
    r.SuspendUser? || r.SetSeller? || r.AdminPatchCar? || r.AdminDropCar? || r.ConfirmReservation?
    || r.RequestCorrection?
  }

  /** A request that succeeds was sent with the role its route demands. */
  lemma RolesAreDemanded(t: Tables, e: Event)
    requires Perform(t, e).Done?
    ensures ForBuyers(e.request) ==> Buyer in e.actor.roles
    ensures ForSellers(e.request) ==> Seller in e.actor.roles
    ensures ForAdmins(e.request) ==> Admin in e.actor.roles
  {
  }

  // ---------- Cars ----------

  /** The patch a successful request applies to the car, if any. */
  function PatchOn(t: Tables, e: Event, c: int): Option<Patch>
  {
    match e.request
    case PatchCar(id, patch, _) => if Perform(t, e).Done? && id == c then Some(patch) else None
    case AdminPatchCar(id, patch) => if Perform(t, e).Done? && id == c then Some(patch) else None
    case _ => None
  }

  lemma OnlyListingsTouchCars(t: Tables, e: Event)
    requires !OnListing(e.request)
    ensures Commit(t, e).cars == t.cars
  {
    if Perform(t, e).Done? {
      if OnBooking(e.request) {
        BookingShape(t, e.actor, e.request);
      } else {
        AccountShape(t, e.actor, e.request);
      }
    }
  }

  lemma ListingIsOutcome(t: Tables, e: Event)
    requires OnListing(e.request) && Perform(t, e).Done?
    ensures Perform(t, e) == ListingOutcome(t, e.actor, e.request)
  {
  }

  /** A car appears only when a seller lists it, active and its own; it goes only when its owner
      or an administrator deletes it. */
  lemma CarsComeAndGo(t: Tables, e: Event, c: int)
    requires RowsOk(t)
    ensures c !in t.cars && c in Commit(t, e).cars <==> c == t.nextCar && e.request.CreateCar? && Perform(t, e).Done?
    ensures c !in t.cars && c in Commit(t, e).cars ==>
              Commit(t, e).cars[c] == Car(e.actor.id, e.request.name, e.request.photo, e.request.price, true)
    ensures c in t.cars && c !in Commit(t, e).cars <==>
              c in t.cars && (e.request.DropCar? || e.request.AdminDropCar?) && e.request.id == c && Perform(t, e).Done?
  {
    if !OnListing(e.request) {
      OnlyListingsTouchCars(t, e);
    } else if Perform(t, e).Done? {
      ListingIsOutcome(t, e);
    }
  }

  lemma PatchTouches(t: Tables, u: Actor, r: Request, c: int)
    requires OnListing(r) && ListingOutcome(t, u, r).Done? && c in t.cars && c in ListingOutcome(t, u, r).t.cars
    requires c != t.nextCar
    ensures !((r.PatchCar? || r.AdminPatchCar?) && r.id == c) ==> ListingOutcome(t, u, r).t.cars[c] == t.cars[c]
    ensures (r.PatchCar? || r.AdminPatchCar?) && r.id == c ==>
              ListingOutcome(t, u, r).t.cars[c] == Patched(t.cars[c], r.patch)
  {
  }

  /** A car's row changes only by a patch of it, which writes the fields it gives and no other,
      and never the owner. */
  lemma CarKeepsButPatch(t: Tables, e: Event, c: int)
    requires RowsOk(t) && c in t.cars && c in Commit(t, e).cars
    ensures var before, after, p := t.cars[c], Commit(t, e).cars[c], PatchOn(t, e, c);
            after.owner == before.owner
            && after.name == (if p.Some? && p.value.name.Some? then p.value.name.value else before.name)
            && after.photo == (if p.Some? && p.value.photo.Some? then p.value.photo.value else before.photo)
            && after.price == (if p.Some? && p.value.price.Some? then p.value.price.value else before.price)
            && after.active == (if p.Some? && p.value.active.Some? then p.value.active.value else before.active)
  {
    if !OnListing(e.request) {
      OnlyListingsTouchCars(t, e);
    } else if Perform(t, e).Done? {
      ListingIsOutcome(t, e);
      PatchTouches(t, e.actor, e.request, c);
    }
  }

  /** This very owner created this very car, as a seller. */
  ghost predicate ListedBy(events: seq<Event>, c: int, owner: int)
  {
    exists k :: 0 <= k < |events| && Lists(After(events[..k]), events[k], c, owner)
  }

  predicate Lists(t: Tables, e: Event, c: int, owner: int)
  {
    e.request.CreateCar? && Perform(t, e).Done? && t.nextCar == c && e.actor.id == owner && Seller in e.actor.roles
  }

  /** In every reachable state every car was listed by its owner, who did so as a seller. */
  lemma {:induction false} CarsAreListed(events: seq<Event>, c: int)
    requires c in After(events).cars
    ensures ListedBy(events, c, After(events).cars[c].owner)
  {
    if events != [] {
      var front, e := events[..|events| - 1], events[|events| - 1];
      var t := After(front);
      AfterRowsOk(front);
      CarsComeAndGo(t, e, c);
      if c in t.cars {
        CarKeepsButPatch(t, e, c);
        CarsAreListed(front, c);
        var k :| 0 <= k < |front| && Lists(After(front[..k]), front[k], c, t.cars[c].owner);
        assert events[..k] == front[..k];
        assert Lists(After(events[..k]), events[k], c, t.cars[c].owner);
      } else {
        RolesAreDemanded(t, e);
        assert Lists(After(events[..|events| - 1]), events[|events| - 1], c, e.actor.id);
      }
    }
  }

  // ---------- Accounts ----------

  lemma OnlyAccountsTouchUsers(t: Tables, e: Event)
    requires !OnAccount(e.request)
    ensures Commit(t, e).users == t.users
  {
    StepShape(t, e);
  }

  /** An account appears only when it registers, under an email nobody has: with its normalised
      phone, the roles it earns and no suspension. */
  lemma AccountsAppear(t: Tables, e: Event, u: int)
    requires RowsOk(t) && u !in t.users && u in Commit(t, e).users
    ensures u == t.nextUser && e.request.Register?
    ensures forall v | v in t.users :: t.users[v].email != e.request.email
    ensures Normalized(e.request.phone).Some?
    ensures var row := Commit(t, e).users[u];
            row.email == e.request.email && row.phone == Normalized(e.request.phone).value && row.suspendedAt.None?
            && Buyer in row.roles && (Seller in row.roles <==> row.phone != "")
            && (Admin in row.roles <==> e.request.allowListed)
  {
    if !OnAccount(e.request) {
      OnlyAccountsTouchUsers(t, e);
    } else {
      RegisterAdds(t, e, u);
    }
  }

  lemma RegisterAdds(t: Tables, e: Event, u: int)
    requires OnAccount(e.request) && u !in t.users && u in Commit(t, e).users
    ensures e.request.Register? && u == t.nextUser && Normalized(e.request.phone).Some?
    ensures UserByEmail(t.users, e.request.email) == {}
    ensures var phone := Normalized(e.request.phone).value;
            Commit(t, e).users[u] == User(e.request.email, phone,
              {Buyer} + (if phone != "" then {Seller} else {}) + (if e.request.allowListed then {Admin} else {}), None)
    ensures forall v | v in t.users :: t.users[v].email != e.request.email
  {
    if e.request.Register? && UserByEmail(t.users, e.request.email) == {} {
      forall v | v in t.users ensures t.users[v].email != e.request.email {
        assert v !in UserByEmail(t.users, e.request.email);
      }
    }
  }

  /** A registration with a phone that normalises and an email nobody has creates the account. */
  lemma RegistrationCreates(t: Tables, e: Event)
    requires e.request.Register? && Normalized(e.request.phone).Some?
    requires forall v | v in t.users :: t.users[v].email != e.request.email
    ensures t.nextUser in Commit(t, e).users && Commit(t, e).users[t.nextUser].email == e.request.email
  {
    forall v ensures v !in UserByEmail(t.users, e.request.email) {
    }
    assert UserByEmail(t.users, e.request.email) == {};
  }

  /** The phone a successful request stores for the account, if any: its own, normalised. */
  function PhoneFor(t: Tables, e: Event, u: int): Option<string>
  {
    match e.request
    case BecomeSeller(phone) => if Perform(t, e).Done? && e.actor.id == u then Normalized(phone) else None
    case UpdateMe(phone) => if Perform(t, e).Done? && e.actor.id == u then Normalized(phone) else None
    case _ => None
  }

  /** What a successful request says of the account's seller role, if anything. */
  function SellerFor(t: Tables, e: Event, u: int): Option<bool>
  {
    match e.request
    case BecomeSeller(_) =>
      if Perform(t, e).Done? && e.actor.id == u && Seller !in e.actor.roles then Some(true) else None
    case SetSeller(id, seller, _) => if Perform(t, e).Done? && id == u then Some(seller) else None
    case _ => None
  }

  /** What is to become of each part of an account's row. */
  ghost predicate Becomes(t: Tables, e: Event, u: int, before: User, after: User)
  {
    after.email == before.email
    && after.phone == (if PhoneFor(t, e, u).Some? then PhoneFor(t, e, u).value else before.phone)
    && (Buyer in after.roles <==> Buyer in before.roles)
    && (Seller in after.roles <==>
          if SellerFor(t, e, u).Some? then SellerFor(t, e, u).value else Seller in before.roles)
    && (Admin in after.roles <==> if e.request.SyncAdmins? then u in e.request.admins else Admin in before.roles)
    && after.suspendedAt ==
         if e.request.SuspendUser? && e.request.id == u && Perform(t, e).Done?
            && e.request.suspended != before.suspendedAt.Some?
         then (if e.request.suspended then Some(e.request.now) else None) else before.suspendedAt
  }

  lemma SyncBecomes(t: Tables, e: Event, u: int)
    requires e.request.SyncAdmins? && u in t.users
    ensures u in Commit(t, e).users && Becomes(t, e, u, t.users[u], Commit(t, e).users[u])
  {
  }

  lemma SuspendBecomes(t: Tables, e: Event, u: int)
    requires e.request.SuspendUser? && u in t.users
    ensures u in Commit(t, e).users && Becomes(t, e, u, t.users[u], Commit(t, e).users[u])
  {
  }

  lemma SetSellerBecomes(t: Tables, e: Event, u: int)
    requires e.request.SetSeller? && u in t.users
    ensures u in Commit(t, e).users && Becomes(t, e, u, t.users[u], Commit(t, e).users[u])
  {
  }

  lemma OwnBecomes(t: Tables, e: Event, u: int)
    requires (e.request.Register? || e.request.BecomeSeller? || e.request.UpdateMe?) && u in t.users
    requires t.nextUser !in t.users
    ensures u in Commit(t, e).users && Becomes(t, e, u, t.users[u], Commit(t, e).users[u])
  {
  }

  /** An account's email and buyer role never change; its phone only by its own request; its
      seller role only by its own promotion or an administrator's request; its administrator
      role only by a reload of the allow-list, to what the list says; its suspension only by an
      administrator's request. */
  lemma AccountKeepsBut(t: Tables, e: Event, u: int)
    requires RowsOk(t) && u in t.users
    ensures u in Commit(t, e).users && Becomes(t, e, u, t.users[u], Commit(t, e).users[u])
  {
    if !OnAccount(e.request) {
      OnlyAccountsTouchUsers(t, e);
    } else if e.request.SyncAdmins? {
      SyncBecomes(t, e, u);
    } else if e.request.SuspendUser? {
      SuspendBecomes(t, e, u);
    } else if e.request.SetSeller? {
      SetSellerBecomes(t, e, u);
    } else {
      OwnBecomes(t, e, u);
    }
  }

  /** Emails tell accounts apart, and everybody is a buyer. */
  ghost predicate IdentitiesOk(users: map<int, User>)
  {
    (forall u, v | u in users && v in users && users[u].email == users[v].email :: u == v)
    && forall u | u in users :: Buyer in users[u].roles
  }

  lemma IdentitiesKept(t: Tables, e: Event)
    requires RowsOk(t) && IdentitiesOk(t.users)
    ensures IdentitiesOk(Commit(t, e).users)
  {
    var n := Commit(t, e);
    forall u | u in n.users
      ensures u in t.users ==> n.users[u].email == t.users[u].email && Buyer in n.users[u].roles
      ensures u !in t.users ==>
                u == t.nextUser && Buyer in n.users[u].roles
                && forall v | v in t.users :: t.users[v].email != n.users[u].email
    {
      if u in t.users {
        AccountKeepsBut(t, e, u);
      } else {
        AccountsAppear(t, e, u);
      }
    }
  }

  /** In every reachable state no two accounts share an email, and every account is a buyer. */
  lemma {:induction false} AccountsAreDistinct(events: seq<Event>)
    ensures IdentitiesOk(After(events).users)
  {
    if events != [] {
      AccountsAreDistinct(events[..|events| - 1]);
      AfterRowsOk(events[..|events| - 1]);
      IdentitiesKept(After(events[..|events| - 1]), events[|events| - 1]);
    }
  }

  /** Registration answers alike whatever accounts there are, so it tells nobody which emails
      are registered. */
  lemma RegistrationTellsNothing(t: Tables, other: Tables, e: Event)
    requires e.request.Register?
    ensures Perform(t, e).Done? <==> Normalized(e.request.phone).Some?
    ensures Perform(t, e).Refused? ==> Perform(t, e) == Perform(other, e) == Refused(InvalidPhone)
  {
  }

  // ---------- Payments and bookings ----------

  /** A new booking is the caller's, of that car, for those dates, and pending. */
  lemma BookingIsStored(t: Tables, e: Event)
    requires e.request.CreateReservation? && Perform(t, e).Done?
    ensures Commit(t, e).reservations == t.reservations[t.nextReservation :=
              Reservation(e.actor.id, e.request.car, e.request.start, e.request.end, Pending)]
  {
  }

  /** What the buyer last sent for the reservation, by the requests that succeeded. */
  function LastSent(events: seq<Event>, id: int): Option<(PayMethod, string)>
  {
    if events == [] then None
    else
      var front, e := events[..|events| - 1], events[|events| - 1];
      if e.request.RecordPayment? && e.request.id == id && Perform(After(front), e).Done?
      then Some((e.request.paidBy, e.request.proof)) else LastSent(front, id)
  }

  lemma MovedKeepsSent(t: Tables, n: Tables, r: int, from: PayStatus, to: PayStatus, id: int)
    requires PaysOk(t) && PaysOk(n) && n.payments == PaymentsMoved(t.payments, r, from, to)
    ensures SentOf(n, id) == SentOf(t, id)
  {
    MovedPayment(t, n, r, from, to, id);
  }

  function SentOf(t: Tables, id: int): Option<(PayMethod, string)>
  {
    match PaymentOf(t, id) case Some(p) => Some((p.paidBy, p.proof)) case None => None
  }

  lemma PaySends(t: Tables, u: Actor, r: int, paidBy: PayMethod, proof: string, id: int)
    requires RowsOk(t) && Pay(t, u, r, paidBy, proof).Done?
    ensures SentOf(Pay(t, u, r, paidBy, proof).t, id) == if r == id then Some((paidBy, proof)) else SentOf(t, id)
    ensures r == id ==> PaymentOf(Pay(t, u, r, paidBy, proof).t, id) == Some(Payment(id, paidBy, PayPending, proof))
  {
    var n, row := Pay(t, u, r, paidBy, proof).t, PaymentRowOf(t, r);
    var p := if row.Some? then row.value else t.nextPayment;
    PayRows(t, u, r, paidBy, proof);
    WrittenPayment(t, n, r, p, n.payments[p], id);
  }

  lemma OthersSendNothing(t: Tables, u: Actor, r: Request, id: int)
    requires RowsOk(t) && OnBooking(r) && !r.RecordPayment? && BookingOutcome(t, u, r).Done?
    requires RowsOk(BookingOutcome(t, u, r).t)
    ensures SentOf(BookingOutcome(t, u, r).t, id) == SentOf(t, id)
  {
    var n := BookingOutcome(t, u, r).t;
    match r
    case RejectReservation(x) => MovedKeepsSent(t, n, x, PayPending, PayRejected, id);
    case ConfirmReservation(x) => MovedKeepsSent(t, n, x, PayPending, PayApproved, id);
    case RequestCorrection(x) => MovedKeepsSent(t, n, x, PayPending, PayRejected, id);
    case _ => SameRow(t, n, id);
  }

  lemma StepSends(t: Tables, e: Event, id: int)
    requires RowsOk(t)
    ensures SentOf(Commit(t, e), id)
         == if e.request.RecordPayment? && e.request.id == id && Perform(t, e).Done?
            then Some((e.request.paidBy, e.request.proof)) else SentOf(t, id)
  {
    StepRowsOk(t, e);
    if !OnBooking(e.request) {
      StepShape(t, e);
    } else if Perform(t, e).Done? {
      if e.request.RecordPayment? {
        PaySends(t, e.actor, e.request.id, e.request.paidBy, e.request.proof, id);
      } else {
        OthersSendNothing(t, e.actor, e.request, id);
      }
    }
  }

  /** In every reachable state a reservation has a payment exactly when one was sent for it, and
      its method and proof are those its buyer sent last. */
  lemma {:induction false} PaymentIsLastSent(events: seq<Event>, id: int)
    ensures SentOf(After(events), id) == LastSent(events, id)
  {
    if events != [] {
      PaymentIsLastSent(events[..|events| - 1], id);
      AfterRowsOk(events[..|events| - 1]);
      StepSends(After(events[..|events| - 1]), events[|events| - 1], id);
    }
  }
}
