// No car is booked twice on a day, the catalog offers exactly what can be booked, and an
// inactive car has no booking ahead of it.
module Availability {
  import opened Common
  import opened Calendar
  import opened Store
  import opened Booking
  import opened Shapes
  import opened Rows
  import opened Lifecycle

  // ---------- Days ----------

  /** Canonical dates in order, at most 30 inclusive days apart. */
  predicate DatesOk(r: Reservation)
  {
    ParseDate(r.start).Some? && ParseDate(r.end).Some?
    && 0 <= DayNumber(ParseDate(r.end).value) - DayNumber(ParseDate(r.start).value) < 30
  }

  /** The dates a creation lets through are stored canonical, in order and within the cap. */
  lemma DateErrorIsDatesOk(r: Reservation, today: Day)
    ensures DateError(r.start, r.end, today).None? ==> DatesOk(r) && StrLe(Format(today), r.start)
  {
    if DateError(r.start, r.end, today).None? {
      var s, e := ParseDate(r.start).value, ParseDate(r.end).value;
      InstantOrderIsDayOrder(e, s);
      CapIsThirtyInclusiveDays(s, e);
      ParseDateIsCanonical(r.start);
      TextOrderIsDayOrder(s, today);
      TextOrderIsDayOrder(today, s);
    }
  }

  /** A reservation, whose dates are canonical, covers a calendar day. */
  predicate Covers(r: Reservation, day: int)
  {
    DatesOk(r) && DayNumber(ParseDate(r.start).value) <= day <= DayNumber(ParseDate(r.end).value)
  }

  predicate Ordered(start: string, end: string)
  {
    ParseDate(start).Some? && ParseDate(end).Some?
    && DayNumber(ParseDate(start).value) <= DayNumber(ParseDate(end).value)
  }

  lemma TextIsDayOrder(a: string, b: string)
    requires ParseDate(a).Some? && ParseDate(b).Some?
    ensures StrLe(a, b) <==> DayNumber(ParseDate(a).value) <= DayNumber(ParseDate(b).value)
    ensures StrLess(a, b) <==> DayNumber(ParseDate(a).value) < DayNumber(ParseDate(b).value)
  {
    ParseDateIsCanonical(a);
    ParseDateIsCanonical(b);
    TextOrderIsDayOrder(ParseDate(a).value, ParseDate(b).value);
  }

  /** The overlap test on text holds exactly when some calendar day is in both ranges. */
  lemma OverlapIsSharedDay(r: Reservation, start: string, end: string)
    requires DatesOk(r) && Ordered(start, end)
    ensures Overlaps(r, start, end) <==>
              exists day :: Covers(r, day)
                && DayNumber(ParseDate(start).value) <= day <= DayNumber(ParseDate(end).value)
  {
    TextIsDayOrder(r.start, end);
    TextIsDayOrder(start, r.end);
    var a, b := DayNumber(ParseDate(r.start).value), DayNumber(ParseDate(start).value);
    var shared := if a < b then b else a;
    if Overlaps(r, start, end) {
      assert Covers(r, shared);
    }
  }

  // ---------- No double booking ----------

  /** Two blocking reservations of one car never overlap. */
  ghost predicate Disjoint(rs: map<int, Reservation>)
  {
    forall r, s | r in rs && s in rs && r != s && rs[r].car == rs[s].car && Blocking(rs[r].status)
      && Blocking(rs[s].status) ::
      !Overlaps(rs[r], rs[s].start, rs[s].end)
  }

  lemma OverlapIsSymmetric(r: Reservation, s: Reservation)
    ensures Overlaps(r, s.start, s.end) <==> Overlaps(s, r.start, r.end)
  {
  }

  lemma CreateStaysDisjoint(rs: map<int, Reservation>, id: int, row: Reservation)
    requires Disjoint(rs) && id !in rs && |Overlapping(rs, row.car, row.start, row.end)| == 0
    ensures Disjoint(rs[id := row])
  {
    forall s | s in rs && rs[s].car == row.car && Blocking(rs[s].status) ensures !Overlaps(rs[s], row.start, row.end) {
      assert s !in Overlapping(rs, row.car, row.start, row.end);
    }
    forall s | s in rs ensures Overlaps(row, rs[s].start, rs[s].end) <==> Overlaps(rs[s], row.start, row.end) {
      OverlapIsSymmetric(row, rs[s]);
    }
  }

  /** A row keeps its car and dates, and no row starts blocking again. */
  ghost predicate OnlyReleases(rs: map<int, Reservation>, ns: map<int, Reservation>)
  {
    ns.Keys == rs.Keys
    && forall r | r in rs ::
         ns[r] == rs[r].(status := ns[r].status) && (Blocking(ns[r].status) ==> Blocking(rs[r].status))
  }

  lemma ReleaseStaysDisjoint(rs: map<int, Reservation>, ns: map<int, Reservation>)
    requires Disjoint(rs) && OnlyReleases(rs, ns)
    ensures Disjoint(ns)
  {
  }

  lemma NewIdIsFree(t: Tables)
    requires RowsOk(t)
    ensures t.nextReservation !in t.reservations
  {
  }

  lemma MoveReleases(t: Tables, n: Tables, id: int, m: Option<Move>)
    requires IsMove(t, n, id, m) && id in t.reservations
    ensures Blocking(n.reservations[id].status) ==> Blocking(t.reservations[id].status)
  {
  }

  lemma OnlyCreationAdds(t: Tables, u: Actor, r: Request)
    requires OnBooking(r) && !r.CreateReservation? && BookingOutcome(t, u, r).Done?
    ensures BookingOutcome(t, u, r).t.reservations.Keys == t.reservations.Keys
  {
  }

  /** Only a creation adds a row; everything else leaves rows as they were or releases them. */
  lemma StepReleases(t: Tables, e: Event)
    requires RowsOk(t) && !(e.request.CreateReservation? && Perform(t, e).Done?)
    ensures OnlyReleases(t.reservations, Commit(t, e).reservations)
  {
    var n := Commit(t, e);
    if OnBooking(e.request) && Perform(t, e).Done? {
      OnlyCreationAdds(t, e.actor, e.request);
    } else {
      StepShape(t, e);
    }
    forall r | r in t.reservations
      ensures n.reservations[r] == t.reservations[r].(status := n.reservations[r].status)
      ensures Blocking(n.reservations[r].status) ==> Blocking(t.reservations[r].status)
    {
      StepIsMove(t, e, r);
      MoveReleases(t, n, r, MoveOf(t, e, r));
    }
  }

  ghost predicate AllDatesOk(rs: map<int, Reservation>)
  {
    forall r | r in rs :: DatesOk(rs[r])
  }

  lemma ReleaseKeepsDates(rs: map<int, Reservation>, ns: map<int, Reservation>)
    requires AllDatesOk(rs) && OnlyReleases(rs, ns)
    ensures AllDatesOk(ns)
  {
  }

  lemma CreationAddsRow(t: Tables, e: Event)
    requires e.request.CreateReservation? && Perform(t, e).Done?
    ensures CheckError(e.request).None?
    ensures Perform(t, e).t.reservations
         == t.reservations[t.nextReservation :=
              Reservation(e.actor.id, e.request.car, e.request.start, e.request.end, Pending)]
  {
  }

  lemma AddedDatesOk(rs: map<int, Reservation>, id: int, row: Reservation, today: Day)
    requires AllDatesOk(rs) && DateError(row.start, row.end, today).None?
    ensures AllDatesOk(rs[id := row])
  {
    DateErrorIsDatesOk(row, today);
  }

  /** Every stored reservation has canonical dates and spans 1 to 30 days. */
  lemma {:induction false} StoredDatesAreOk(events: seq<Event>)
    ensures AllDatesOk(After(events).reservations)
  {
    if events != [] {
      var front, e := events[..|events| - 1], events[|events| - 1];
      var t := After(front);
      StoredDatesAreOk(front);
      AfterRowsOk(front);
      if e.request.CreateReservation? && Perform(t, e).Done? {
        var r := e.request;
        CreationAddsRow(t, e);
        AddedDatesOk(t.reservations, t.nextReservation, Reservation(e.actor.id, r.car, r.start, r.end, Pending),
                     r.today);
      } else {
        StepReleases(t, e);
        ReleaseKeepsDates(t.reservations, Commit(t, e).reservations);
      }
    }
  }

  lemma {:induction false} BookingsAreDisjoint(events: seq<Event>)
    ensures Disjoint(After(events).reservations)
  {
    if events != [] {
      var front, e := events[..|events| - 1], events[|events| - 1];
      BookingsAreDisjoint(front);
      AfterRowsOk(front);
      StepStaysDisjoint(After(front), e);
    }
  }

  lemma CreationClashes(t: Tables, e: Event)
    requires e.request.CreateReservation? && Perform(t, e).Done?
    ensures |Overlapping(t.reservations, e.request.car, e.request.start, e.request.end)| == 0
  {
  }

  lemma StepStaysDisjoint(t: Tables, e: Event)
    requires RowsOk(t) && Disjoint(t.reservations)
    ensures Disjoint(Commit(t, e).reservations)
  {
    if e.request.CreateReservation? && Perform(t, e).Done? {
      NewIdIsFree(t);
      var r := e.request;
      CreationAddsRow(t, e);
      CreationClashes(t, e);
      CreateStaysDisjoint(t.reservations, t.nextReservation, Reservation(e.actor.id, r.car, r.start, r.end, Pending));
    } else {
      StepReleases(t, e);
      ReleaseStaysDisjoint(t.reservations, Commit(t, e).reservations);
    }
  }

  /** A reservation that is neither cancelled nor rejected holds the car on a calendar day. */
  predicate HoldsOn(r: Reservation, car: int, day: int)
  {
    r.car == car && r.status in {Pending, Accepted, Confirmed} && Covers(r, day)
  }

  /** At most one pending, accepted or confirmed reservation holds a car on a day. */
  ghost predicate OnePerDay(rs: map<int, Reservation>)
  {
    forall r, s, car, day | r in rs && s in rs && HoldsOn(rs[r], car, day) && HoldsOn(rs[s], car, day) :: r == s
  }

  lemma BlockingIsHolding(s: Status)
    ensures Blocking(s) <==> s in {Pending, Accepted, Confirmed}
  {
  }

  lemma SharedDayOverlaps(r: Reservation, s: Reservation, day: int)
    requires Covers(r, day) && Covers(s, day)
    ensures Overlaps(r, s.start, s.end)
  {
    OverlapIsSharedDay(r, s.start, s.end);
  }

  /** In every reachable state at most one pending, accepted or confirmed reservation of a
      car covers a calendar day. */
  lemma {:induction false} OneBookingPerDay(events: seq<Event>)
    ensures OnePerDay(After(events).reservations)
  {
    var rs := After(events).reservations;
    BookingsAreDisjoint(events);
    forall r, s, car, day | r in rs && s in rs && HoldsOn(rs[r], car, day) && HoldsOn(rs[s], car, day) ensures r == s {
      BlockingIsHolding(rs[r].status);
      BlockingIsHolding(rs[s].status);
      SharedDayOverlaps(rs[r], rs[s], day);
    }
  }

  // ---------- The catalog ----------

  datatype Catalog = Offered(cars: set<int>) | BadRange(e: Error)

  /** ListCars without an owner filter and without pagination; "" is an absent date. */
  function ListCars(t: Tables, start: string, end: string): Catalog
  {
    var active := set c | c in t.cars && t.cars[c].active;
    if (start == "") != (end == "") then BadRange(DatesNotTogether)
    else if start == "" then Offered(active)
    else
      var s, e := ParseDate(start), ParseDate(end);
      if s.None? then BadRange(InvalidStartDate)
      else if e.None? then BadRange(InvalidEndDate)
      else if Instant(e.value) < Instant(s.value) then BadRange(EndBeforeStart)
      else Offered(set c | c in active &&
             !(exists r :: r in t.reservations && t.reservations[r].car == c && Blocking(t.reservations[r].status)
                           && Overlaps(t.reservations[r], start, end)))
  }

  /** Some blocking reservation of the car overlaps the range. */
  ghost predicate Clashes(rs: map<int, Reservation>, car: int, start: string, end: string)
  {
    exists r :: r in rs && rs[r].car == car && Blocking(rs[r].status) && Overlaps(rs[r], start, end)
  }

  lemma CountFindsClashes(rs: map<int, Reservation>, car: int, start: string, end: string)
    ensures |Overlapping(rs, car, start, end)| > 0 <==> Clashes(rs, car, start, end)
  {
    var clashing := Overlapping(rs, car, start, end);
    if Clashes(rs, car, start, end) {
      var r :| r in rs && rs[r].car == car && Blocking(rs[r].status) && Overlaps(rs[r], start, end);
      assert r in clashing;
    } else {
      assert forall r :: r !in clashing;
    }
  }

  /** Some pending, accepted or confirmed reservation holds the car on the day. */
  ghost predicate TakenOn(rs: map<int, Reservation>, car: int, day: int)
  {
    exists r :: r in rs && HoldsOn(rs[r], car, day)
  }

  /** The car is listed and active, and no day of the range is taken. */
  ghost predicate FreeOn(t: Tables, car: int, start: string, end: string)
    requires Ordered(start, end)
  {
    car in t.cars && t.cars[car].active
    && forall day | DayNumber(ParseDate(start).value) <= day <= DayNumber(ParseDate(end).value) ::
         !TakenOn(t.reservations, car, day)
  }

  lemma ClashIsSharedDay(r: Reservation, car: int, start: string, end: string)
    requires DatesOk(r) && Ordered(start, end)
    ensures r.car == car && Blocking(r.status) && Overlaps(r, start, end) <==>
              exists day :: HoldsOn(r, car, day)
                && DayNumber(ParseDate(start).value) <= day <= DayNumber(ParseDate(end).value)
  {
    OverlapIsSharedDay(r, start, end);
    BlockingIsHolding(r.status);
    if r.car == car && Blocking(r.status) && Overlaps(r, start, end) {
      var day :| Covers(r, day) && DayNumber(ParseDate(start).value) <= day <= DayNumber(ParseDate(end).value);
      assert HoldsOn(r, car, day);
    }
  }

  lemma ClashesAreTaken(rs: map<int, Reservation>, car: int, start: string, end: string)
    requires AllDatesOk(rs) && Ordered(start, end)
    ensures Clashes(rs, car, start, end) <==>
              exists day :: TakenOn(rs, car, day)
                && DayNumber(ParseDate(start).value) <= day <= DayNumber(ParseDate(end).value)
  {
    var s, e := DayNumber(ParseDate(start).value), DayNumber(ParseDate(end).value);
    if Clashes(rs, car, start, end) {
      var r :| r in rs && rs[r].car == car && Blocking(rs[r].status) && Overlaps(rs[r], start, end);
      ClashIsSharedDay(rs[r], car, start, end);
      var day :| HoldsOn(rs[r], car, day) && s <= day <= e;
      assert TakenOn(rs, car, day);
    } else {
      forall day | s <= day <= e ensures !TakenOn(rs, car, day) {
        forall r | r in rs ensures !HoldsOn(rs[r], car, day) {
          ClashIsSharedDay(rs[r], car, start, end);
        }
      }
    }
  }

  /** The dates a booking may have: canonical, not in the past, in order, at most 30 days. */
  predicate Rentable(start: string, end: string, today: Day)
  {
    ParseDate(start).Some? && ParseDate(end).Some?
    && DayNumber(today) <= DayNumber(ParseDate(start).value) <= DayNumber(ParseDate(end).value)
    && DayNumber(ParseDate(end).value) - DayNumber(ParseDate(start).value) < 30
  }

  lemma DateErrorIsNotRentable(start: string, end: string, today: Day)
    ensures DateError(start, end, today).None? <==> Rentable(start, end, today)
  {
    if ParseDate(start).Some? && ParseDate(end).Some? {
      var s, e := ParseDate(start).value, ParseDate(end).value;
      InstantOrderIsDayOrder(e, s);
      CapIsThirtyInclusiveDays(s, e);
      ParseDateIsCanonical(start);
      TextOrderIsDayOrder(s, today);
    }
  }

  lemma CreationGuards(t: Tables, e: Event)
    requires e.request.CreateReservation? && e.actor.id in t.users
    ensures Perform(t, e).Done? <==>
              Buyer in e.actor.roles && DateError(e.request.start, e.request.end, e.request.today).None?
                && e.request.car != 0
                && Create(t, e.actor, e.request.car, e.request.start, e.request.end).Done?
  {
  }

  lemma CreateExactly(t: Tables, u: Actor, car: int, start: string, end: string)
    requires AllDatesOk(t.reservations) && Ordered(start, end)
    ensures Create(t, u, car, start, end).Done? <==> FreeOn(t, car, start, end)
  {
    CountFindsClashes(t.reservations, car, start, end);
    ClashesAreTaken(t.reservations, car, start, end);
  }

  /** A booking succeeds exactly when the caller is a buyer, the dates are canonical, from today
      on, in order and at most 30 days, the car is listed and active, and none of the days is
      held by a pending, accepted or confirmed reservation. */
  lemma BookableExactly(t: Tables, e: Event)
    requires RowsOk(t) && AllDatesOk(t.reservations) && e.request.CreateReservation? && e.actor.id in t.users
    ensures Perform(t, e).Done? <==>
              Buyer in e.actor.roles && Rentable(e.request.start, e.request.end, e.request.today)
              && FreeOn(t, e.request.car, e.request.start, e.request.end)
  {
    var start, end := e.request.start, e.request.end;
    CreationGuards(t, e);
    DateErrorIsNotRentable(start, end, e.request.today);
    if Rentable(start, end, e.request.today) {
      CreateExactly(t, e.actor, e.request.car, start, end);
    }
  }

  /** The catalog offers all active cars without dates, and for a range of dates in order
      exactly the active cars that no pending, accepted or confirmed reservation holds on any
      of its days. */
  lemma CatalogExactly(t: Tables, car: int, start: string, end: string)
    requires AllDatesOk(t.reservations)
    ensures ListCars(t, "", "").Offered?
    ensures car in ListCars(t, "", "").cars <==> car in t.cars && t.cars[car].active
    ensures start != "" && end != "" ==> (ListCars(t, start, end).Offered? <==> Ordered(start, end))
    ensures (start == "") != (end == "") ==> ListCars(t, start, end).BadRange?
    ensures start != "" && end != "" && Ordered(start, end) ==>
              (car in ListCars(t, start, end).cars <==> FreeOn(t, car, start, end))
  {
    if start != "" && end != "" && ParseDate(start).Some? && ParseDate(end).Some? {
      InstantOrderIsDayOrder(ParseDate(end).value, ParseDate(start).value);
      if Ordered(start, end) {
        ClashesAreTaken(t.reservations, car, start, end);
      }
    }
  }

  /** For any range the catalog accepts, past or long, it offers exactly the cars whose booking
      passes every guard after the checks on the dates. */
  lemma OfferedIsCreatable(t: Tables, u: Actor, car: int, start: string, end: string)
    requires start != "" && ListCars(t, start, end).Offered?
    ensures car in ListCars(t, start, end).cars <==> Create(t, u, car, start, end).Done?
  {
    CountFindsClashes(t.reservations, car, start, end);
  }

  /** A booking succeeds exactly for the cars the catalog offers for its dates, when they are
      neither past nor too long and the caller is a buyer. */
  lemma OfferedIsBookable(t: Tables, e: Event)
    requires RowsOk(t) && e.request.CreateReservation? && e.actor.id in t.users
    ensures Perform(t, e).Done? <==>
              Buyer in e.actor.roles && DateError(e.request.start, e.request.end, e.request.today).None?
              && ListCars(t, e.request.start, e.request.end).Offered?
              && e.request.car in ListCars(t, e.request.start, e.request.end).cars
  {
    var car, start, end := e.request.car, e.request.start, e.request.end;
    CreationGuards(t, e);
    if DateError(start, end, e.request.today).None? {
      assert ParseDate("").None?;
      OfferedIsCreatable(t, e.actor, car, start, end);
    }
  }

  /** The catalog refuses a range for the reasons a booking of it does, except that it looks
      at past and long ranges too. */
  lemma CatalogRefusals(t: Tables, start: string, end: string, today: Day)
    requires start != "" && end != ""
    ensures ListCars(t, start, end).BadRange? ==> DateError(start, end, today) == Some(ListCars(t, start, end).e)
    ensures ListCars(t, start, end).Offered? ==>
              DateError(start, end, today).None? || DateError(start, end, today).value in {TooLong, StartInPast}
  {
  }

  // ---------- Released dates ----------

  lemma ReleaseStops(t: Tables, e: Event, id: int)
    requires e.request == CancelReservation(id) || e.request == RejectReservation(id)
    requires Perform(t, e).Done?
    ensures id in t.reservations && t.reservations[id].status in {Pending, Accepted, Confirmed}
    ensures id in Commit(t, e).reservations && Commit(t, e).reservations[id].status in {Cancelled, Rejected}
  {
  }

  lemma ReleaseFrees(rs: map<int, Reservation>, ns: map<int, Reservation>, id: int, day: int)
    requires OnePerDay(rs) && OnlyReleases(rs, ns) && id in rs && HoldsOn(rs[id], rs[id].car, day)
    requires ns[id].status in {Cancelled, Rejected}
    ensures !TakenOn(ns, rs[id].car, day)
  {
    forall r | r in ns ensures !HoldsOn(ns[r], rs[id].car, day) {
      BlockingIsHolding(rs[r].status);
      BlockingIsHolding(ns[r].status);
      if HoldsOn(ns[r], rs[id].car, day) {
        assert HoldsOn(rs[r], rs[id].car, day);
      }
    }
  }

  /** Right after a cancellation or a rejection no day of the released dates is taken. */
  lemma {:induction false} ReleasedDatesAreFree(events: seq<Event>, e: Event, id: int, day: int)
    requires e.request == CancelReservation(id) || e.request == RejectReservation(id)
    requires Perform(After(events), e).Done? && id in After(events).reservations
    requires Covers(After(events).reservations[id], day)
    ensures !TakenOn(After(events + [e]).reservations, After(events).reservations[id].car, day)
  {
    var t := After(events);
    assert (events + [e])[..|events|] == events;
    AfterRowsOk(events);
    OneBookingPerDay(events);
    StepReleases(t, e);
    ReleaseStops(t, e, id);
    ReleaseFrees(t.reservations, Commit(t, e).reservations, id, day);
  }

  // ---------- Reservations still to run ----------

  /** A pending, accepted or confirmed reservation with this day or a later one to run. */
  predicate RunsOn(r: Reservation, day: Day)
  {
    r.status in {Pending, Accepted, Confirmed}
    && ParseDate(r.end).Some? && DayNumber(ParseDate(r.end).value) >= DayNumber(day)
  }

  lemma RunsOnIsText(r: Reservation, day: Day)
    requires DatesOk(r)
    ensures RunsOn(r, day) <==> Blocking(r.status) && StrLe(Format(day), r.end)
  {
    FormatIsParsed(day);
    TextIsDayOrder(Format(day), r.end);
    BlockingIsHolding(r.status);
  }

  ghost predicate CarRunsOn(rs: map<int, Reservation>, car: int, day: Day)
  {
    exists r :: r in rs && rs[r].car == car && RunsOn(rs[r], day)
  }

  ghost predicate OwnerRunsOn(t: Tables, owner: int, day: Day)
  {
    exists r :: Joined(t, r) && OwnerOf(t, r) == owner && RunsOn(t.reservations[r], day)
  }

  ghost predicate EverBooked(rs: map<int, Reservation>, car: int)
  {
    exists r :: r in rs && rs[r].car == car
  }

  lemma FutureCounted(rs: map<int, Reservation>, car: int, day: Day)
    requires AllDatesOk(rs)
    ensures |FutureOf(rs, car, Format(day))| > 0 <==> CarRunsOn(rs, car, day)
  {
    var future := FutureOf(rs, car, Format(day));
    forall r | r in rs ensures r in future <==> rs[r].car == car && RunsOn(rs[r], day) {
      RunsOnIsText(rs[r], day);
    }
    if CarRunsOn(rs, car, day) {
      var r :| r in rs && rs[r].car == car && RunsOn(rs[r], day);
      assert r in future;
    } else {
      assert forall r :: r !in future;
    }
  }

  // ---------- Inactive cars ----------

  /** No inactive car has a blocking reservation that runs on this day or later. */
  ghost predicate NothingAhead(t: Tables, day: Day)
  {
    forall r | Joined(t, r) && !t.cars[t.reservations[r].car].active :: !RunsOn(t.reservations[r], day)
  }

  /** A committed override by an administrator deactivates a car that runs on the day. */
  ghost predicate Overrides(t: Tables, e: Event, day: Day)
  {
    e.request.AdminPatchCar? && Perform(t, e).Done?
    && e.request.patch.active == Some(false) && CarRunsOn(t.reservations, e.request.id, day)
  }

  /** A committed change of a listing, the seller's or an administrator's, does. */
  ghost predicate Strands(t: Tables, e: Event, day: Day)
  {
    Overrides(t, e, day)
    || (e.request.PatchCar? && Perform(t, e).Done?
        && e.request.patch.active == Some(false) && CarRunsOn(t.reservations, e.request.id, day))
  }

  lemma NewRowKeepsAhead(t: Tables, n: Tables, id: int, row: Reservation, day: Day)
    requires NothingAhead(t, day) && n.cars == t.cars && n.reservations == t.reservations[id := row]
    requires row.car in t.cars && t.cars[row.car].active
    ensures NothingAhead(n, day)
  {
    assert forall r | Joined(n, r) && r != id :: Joined(t, r);
  }

  lemma ReleaseKeepsAhead(t: Tables, n: Tables, day: Day)
    requires NothingAhead(t, day) && n.cars == t.cars && OnlyReleases(t.reservations, n.reservations)
    ensures NothingAhead(n, day)
  {
    forall r | Joined(n, r) && RunsOn(n.reservations[r], day) ensures Joined(t, r) && RunsOn(t.reservations[r], day) {
      BlockingIsHolding(n.reservations[r].status);
      BlockingIsHolding(t.reservations[r].status);
    }
  }

  lemma CreationIsOfActive(t: Tables, e: Event)
    requires e.request.CreateReservation? && Perform(t, e).Done?
    ensures e.request.car in t.cars && t.cars[e.request.car].active
  {
  }

  lemma BookingKeepsAhead(t: Tables, e: Event, day: Day)
    requires RowsOk(t) && NothingAhead(t, day) && OnBooking(e.request)
    ensures NothingAhead(Commit(t, e), day)
  {
    StepShape(t, e);
    if e.request.CreateReservation? && Perform(t, e).Done? {
      var r := e.request;
      CreationAddsRow(t, e);
      CreationIsOfActive(t, e);
      NewRowKeepsAhead(t, Commit(t, e), t.nextReservation, Reservation(e.actor.id, r.car, r.start, r.end, Pending),
                       day);
    } else {
      StepReleases(t, e);
      ReleaseKeepsAhead(t, Commit(t, e), day);
    }
  }

  lemma PatchStrands(t: Tables, id: int, p: Patch, owner: Option<int>, today: Option<string>, day: Day)
    requires NothingAhead(t, day) && ApplyPatch(t, id, p, owner, today).Done?
    ensures NothingAhead(ApplyPatch(t, id, p, owner, today).t, day)
       <==> !(p.active == Some(false) && CarRunsOn(t.reservations, id, day))
  {
    var n := ApplyPatch(t, id, p, owner, today).t;
    assert forall r :: Joined(n, r) <==> Joined(t, r);
    if p.active == Some(false) && CarRunsOn(t.reservations, id, day) {
      var r :| r in t.reservations && t.reservations[r].car == id && RunsOn(t.reservations[r], day);
      assert Joined(n, r) && !n.cars[id].active;
    }
  }

  lemma NewCarIsFree(t: Tables)
    requires RowsOk(t)
    ensures forall r | r in t.reservations :: t.reservations[r].car != t.nextCar
  {
  }

  /** A seller's change is the guarded patch of its own car. */
  lemma PatchIsGuarded(t: Tables, e: Event)
    requires e.request.PatchCar? && Perform(t, e).Done?
    ensures Perform(t, e)
         == ApplyPatch(t, e.request.id, e.request.patch, Some(e.actor.id), Some(Format(e.request.today)))
  {
  }

  /** An administrator's is the unguarded patch of any car, with an audit entry. */
  lemma OverrideIsUnguarded(t: Tables, e: Event)
    requires e.request.AdminPatchCar? && Perform(t, e).Done?
    ensures Perform(t, e) == Audited(ApplyPatch(t, e.request.id, e.request.patch, None, None),
                                     Entry(e.actor.id, AuditCarUpdate, OnCar(e.request.id)))
  {
  }

  lemma OtherListingsKeepAhead(t: Tables, u: Actor, r: Request, day: Day)
    requires RowsOk(t) && NothingAhead(t, day)
    requires (r.CreateCar? || r.DropCar? || r.AdminDropCar?) && ListingOutcome(t, u, r).Done?
    ensures NothingAhead(ListingOutcome(t, u, r).t, day)
  {
    if r.CreateCar? {
      NewCarIsFree(t);
    }
  }

  lemma ListingStrands(t: Tables, e: Event, day: Day)
    requires RowsOk(t) && NothingAhead(t, day) && OnListing(e.request) && Perform(t, e).Done?
    ensures NothingAhead(Perform(t, e).t, day) <==> !Strands(t, e, day)
  {
    match e.request
    case PatchCar(id, patch, today) =>
      PatchIsGuarded(t, e);
      PatchStrands(t, id, patch, Some(e.actor.id), Some(Format(today)), day);
    case AdminPatchCar(id, patch) =>
      OverrideIsUnguarded(t, e);
      PatchStrands(t, id, patch, None, None, day);
    case _ => OtherListingsKeepAhead(t, e.actor, e.request, day);
  }

  /** One request leaves a reservation ahead on an inactive car exactly when it strands one. */
  lemma StrandingStep(t: Tables, e: Event, day: Day)
    requires RowsOk(t) && NothingAhead(t, day)
    ensures NothingAhead(Commit(t, e), day) <==> !Strands(t, e, day)
  {
    if Perform(t, e).Done? {
      if OnBooking(e.request) {
        BookingKeepsAhead(t, e, day);
      } else if OnListing(e.request) {
        ListingStrands(t, e, day);
      } else {
        AccountShape(t, e.actor, e.request);
      }
    }
  }

  lemma LaterRunsEarlier(rs: map<int, Reservation>, car: int, today: Day, day: Day)
    requires DayNumber(today) <= DayNumber(day) && CarRunsOn(rs, car, day)
    ensures CarRunsOn(rs, car, today)
  {
    var r :| r in rs && rs[r].car == car && RunsOn(rs[r], day);
    assert RunsOn(rs[r], today);
  }

  /** A seller's deactivation strands nothing on its own day or a later one. */
  lemma GuardedIsHarmless(t: Tables, e: Event, day: Day)
    requires AllDatesOk(t.reservations) && e.request.PatchCar? && DayNumber(e.request.today) <= DayNumber(day)
    ensures !Strands(t, e, day)
  {
    var id, today := e.request.id, e.request.today;
    if Strands(t, e, day) {
      PatchIsGuarded(t, e);
      FutureCounted(t.reservations, id, today);
      LaterRunsEarlier(t.reservations, id, today, day);
    }
  }

  ghost predicate AlwaysNothingAhead(events: seq<Event>, day: Day)
  {
    forall n | 0 <= n <= |events| :: NothingAhead(After(events[..n]), day)
  }

  ghost predicate NeverStrands(events: seq<Event>, day: Day)
  {
    forall n | 0 <= n < |events| :: !Strands(After(events[..n]), events[n], day)
  }

  lemma {:induction false} NothingAheadUpTo(events: seq<Event>, day: Day, n: nat)
    requires NeverStrands(events, day) && n <= |events|
    ensures NothingAhead(After(events[..n]), day)
  {
    if n > 0 {
      NothingAheadUpTo(events, day, n - 1);
      AfterNext(events, n - 1);
      AfterRowsOk(events[..n - 1]);
      StrandingStep(After(events[..n - 1]), events[n - 1], day);
    }
  }

  lemma NothingAheadAround(events: seq<Event>, day: Day, n: nat)
    requires AlwaysNothingAhead(events, day) && n < |events|
    ensures !Strands(After(events[..n]), events[n], day)
  {
    AfterNext(events, n);
    AfterRowsOk(events[..n]);
    StrandingStep(After(events[..n]), events[n], day);
  }

  /** In any run no inactive car has, at any moment, a blocking reservation that runs on the day
      or later exactly when no committed deactivation strands one. */
  lemma InactiveCarsHaveNothingAhead(events: seq<Event>, day: Day)
    ensures AlwaysNothingAhead(events, day) <==> NeverStrands(events, day)
  {
    if NeverStrands(events, day) {
      forall n | 0 <= n <= |events| ensures NothingAhead(After(events[..n]), day) {
        NothingAheadUpTo(events, day, n);
      }
    }
    if AlwaysNothingAhead(events, day) {
      forall n | 0 <= n < |events| ensures !Strands(After(events[..n]), events[n], day) {
        NothingAheadAround(events, day, n);
      }
    }
  }

  /** On a day no seller's deactivation is dated after, only the administrator's override can
      do it, and exactly when it deactivates a car that runs on the day. */
  lemma OnlyOverridesStrand(events: seq<Event>, day: Day)
    requires forall e | e in events && e.request.PatchCar? :: DayNumber(e.request.today) <= DayNumber(day)
    ensures AlwaysNothingAhead(events, day)
       <==> forall n | 0 <= n < |events| :: !Overrides(After(events[..n]), events[n], day)
  {
    InactiveCarsHaveNothingAhead(events, day);
    forall n | 0 <= n < |events|
      ensures Strands(After(events[..n]), events[n], day) <==> Overrides(After(events[..n]), events[n], day)
    {
      if events[n].request.PatchCar? {
        StoredDatesAreOk(events[..n]);
        GuardedIsHarmless(After(events[..n]), events[n], day);
      }
    }
  }

  // ---------- When the calendar guards let a change through ----------

  /** A seller can deactivate its car exactly when none of its pending, accepted or confirmed
      reservations runs today or later. */
  lemma DeactivationExactly(t: Tables, e: Event)
    requires AllDatesOk(t.reservations) && e.actor.id in t.users && Seller in e.actor.roles
    requires e.request.PatchCar? && PatchError(e.request.patch).None? && e.request.patch.active == Some(false)
    requires e.request.id in t.cars && t.cars[e.request.id].owner == e.actor.id
    ensures Perform(t, e).Done? <==> !CarRunsOn(t.reservations, e.request.id, e.request.today)
  {
    FutureCounted(t.reservations, e.request.id, e.request.today);
  }

  lemma FutureOfOwnerCounted(t: Tables, owner: int, day: Day)
    requires AllDatesOk(t.reservations)
    ensures |FutureOfOwner(t, owner, Format(day))| > 0 <==> OwnerRunsOn(t, owner, day)
  {
    var future := FutureOfOwner(t, owner, Format(day));
    forall r | r in t.reservations
      ensures r in future <==> Joined(t, r) && OwnerOf(t, r) == owner && RunsOn(t.reservations[r], day)
    {
      RunsOnIsText(t.reservations[r], day);
    }
    if OwnerRunsOn(t, owner, day) {
      var r :| Joined(t, r) && OwnerOf(t, r) == owner && RunsOn(t.reservations[r], day);
      assert r in future;
    } else {
      assert forall r :: r !in future;
    }
  }

  /** An administrator can revoke an account's seller role exactly when no pending, accepted or
      confirmed reservation of any of its cars runs today or later. */
  lemma RevocationExactly(t: Tables, e: Event)
    requires AllDatesOk(t.reservations) && e.actor.id in t.users && Admin in e.actor.roles
    requires e.request.SetSeller? && !e.request.seller && e.request.id in t.users
    ensures Perform(t, e).Done? <==> !OwnerRunsOn(t, e.request.id, e.request.today)
  {
    FutureOfOwnerCounted(t, e.request.id, e.request.today);
  }

  lemma HistoryCounted(rs: map<int, Reservation>, car: int)
    ensures |HistoryOf(rs, car)| > 0 <==> EverBooked(rs, car)
  {
    var history := HistoryOf(rs, car);
    if EverBooked(rs, car) {
      var r :| r in rs && rs[r].car == car;
      assert r in history;
    } else {
      assert forall r :: r !in history;
    }
  }

  /** A listing can be deleted, by its seller or an administrator, exactly when no reservation
      of any status ever referred to it. */
  lemma DeletionExactly(t: Tables, e: Event)
    requires e.actor.id in t.users && (e.request.DropCar? || e.request.AdminDropCar?) && e.request.id in t.cars
    requires if e.request.DropCar? then Seller in e.actor.roles && t.cars[e.request.id].owner == e.actor.id
             else Admin in e.actor.roles
    ensures Perform(t, e).Done? <==> !EverBooked(t.reservations, e.request.id)
  {
    HistoryCounted(t.reservations, e.request.id);
  }
}
