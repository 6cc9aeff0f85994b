// What the reservation views and the dashboard read: joins that lose and repeat nothing,
// and a total that is the sum over confirmed reservations.
module Joins {
  import opened Common
  import opened Calendar
  import opened Store
  import opened Booking
  import opened Rows
  import opened Lifecycle
  import opened Availability

  datatype Row = Row(reservation: int, car: int, payment: Option<int>)

  /** reservationSelect: reservations JOIN cars LEFT JOIN payments. */
  ghost function ReservationRows(t: Tables): set<Row>
  {
    (set r, p | r in t.reservations && t.reservations[r].car in t.cars && p in t.payments
     && t.payments[p].reservation == r
       :: Row(r, t.reservations[r].car, Some(p)))
    + (set r | r in t.reservations && t.reservations[r].car in t.cars && Unpaid(t.payments, r) ::
       Row(r, t.reservations[r].car, None))
  }

  predicate Unpaid(ps: map<int, Payment>, r: int)
  {
    forall p | p in ps :: ps[p].reservation != r
  }

  lemma RowsOf(t: Tables, id: int)
    requires RowsOk(t) && id in t.reservations
    ensures (set row | row in ReservationRows(t) && row.reservation == id)
         == {Row(id, t.reservations[id].car, PaymentRowOf(t, id))}
  {
    var row := Row(id, t.reservations[id].car, PaymentRowOf(t, id));
    forall other | other in ReservationRows(t) && other.reservation == id ensures other == row {
      if other.payment.Some? {
        RowFound(t, id, other.payment.value);
      }
    }
    if PaymentRowOf(t, id).None? {
      forall p | p in t.payments ensures t.payments[p].reservation != id {
        if t.payments[p].reservation == id { RowFound(t, id, p); }
      }
    }
    assert row in ReservationRows(t);
  }

  /** In every reachable state the view of reservations has exactly one row for each, with
      its car and its payment if it has one, and no other row. */
  lemma {:induction false} JoinsAreLossless(events: seq<Event>, id: int)
    ensures var t := After(events);
            (set row | row in ReservationRows(t) && row.reservation == id)
            == if id in t.reservations then {Row(id, t.reservations[id].car, PaymentRowOf(t, id))} else {}
  {
    AfterRowsOk(events);
    if id in After(events).reservations {
      RowsOf(After(events), id);
    }
  }

  // ---------- The approved total ----------

  const MAX_AMOUNT := 3_000_000_000

  /** price_per_day times the inclusive days; 0 for a row the joins would not produce. */
  function Amount(t: Tables, r: int): int
  {
    if !Joined(t, r) || ParseDate(t.reservations[r].start).None? || ParseDate(t.reservations[r].end).None? then 0
    else
      t.cars[t.reservations[r].car].price
      * (DayNumber(ParseDate(t.reservations[r].end).value) - DayNumber(ParseDate(t.reservations[r].start).value) + 1)
  }

  predicate IsApproved(t: Tables, p: int)
  {
    p in t.payments && t.payments[p].status == PayApproved
  }

  /** The SUM over approved payments with ids below n, joined to reservation and car. */
  function ApprovedBelow(t: Tables, n: nat): int
  {
    if n == 0 then 0
    else ApprovedBelow(t, n - 1) + if IsApproved(t, n - 1) then Amount(t, t.payments[n - 1].reservation) else 0
  }

  function ApprovedTotal(t: Tables): int
  {
    ApprovedBelow(t, t.nextPayment)
  }

  /** The sum over the reservations with ids below n that are in the set. */
  function SumBelow(t: Tables, ids: set<int>, n: nat): int
  {
    if n == 0 then 0 else SumBelow(t, ids, n - 1) + if n - 1 in ids then Amount(t, n - 1) else 0
  }

  function ConfirmedIds(t: Tables): set<int>
  {
    set r | r in t.reservations && t.reservations[r].status == Confirmed
  }

  lemma {:induction false} SumGains(t: Tables, ids: set<int>, r: int, n: nat)
    requires r !in ids && r >= 0
    ensures SumBelow(t, ids + {r}, n) == SumBelow(t, ids, n) + if r < n then Amount(t, r) else 0
  {
    if n > 0 {
      SumGains(t, ids, r, n - 1);
    }
  }

  lemma {:induction false} SumOfNone(t: Tables, n: nat)
    ensures SumBelow(t, {}, n) == 0
  {
    if n > 0 {
      SumOfNone(t, n - 1);
    }
  }

  /** The reservations of the approved payments with ids below n. */
  ghost function PaidBelow(t: Tables, n: nat): set<int>
  {
    set p | p in t.payments && 0 <= p < n && IsApproved(t, p) :: t.payments[p].reservation
  }

  lemma {:induction false} ApprovedIsPaidSum(t: Tables, n: nat)
    requires RowsOk(t) && n <= t.nextPayment
    ensures ApprovedBelow(t, n) == SumBelow(t, PaidBelow(t, n), t.nextReservation)
  {
    if n == 0 {
      assert PaidBelow(t, n) == {};
      SumOfNone(t, t.nextReservation);
    } else {
      ApprovedIsPaidSum(t, n - 1);
      if IsApproved(t, n - 1) {
        var r := t.payments[n - 1].reservation;
        assert PaidBelow(t, n) == PaidBelow(t, n - 1) + {r};
        SumGains(t, PaidBelow(t, n - 1), r, t.nextReservation);
      } else {
        assert PaidBelow(t, n) == PaidBelow(t, n - 1);
      }
    }
  }

  lemma PaidAreConfirmed(events: seq<Event>)
    ensures PaidBelow(After(events), After(events).nextPayment) == ConfirmedIds(After(events))
  {
    var t := After(events);
    AfterRowsOk(events);
    forall r ensures r in PaidBelow(t, t.nextPayment) <==> r in ConfirmedIds(t) {
      if r in t.reservations {
        StatusesAreCoupled(events, r);
        if t.reservations[r].status == Confirmed {
          var p := PaymentRowOf(t, r).value;
          assert IsApproved(t, p) && p in t.payments;
        }
        forall p | p in t.payments && IsApproved(t, p) && t.payments[p].reservation == r
          ensures t.reservations[r].status == Confirmed
        {
          RowFound(t, r, p);
        }
      }
    }
  }

  lemma PriceTimesDays(price: int, days: int)
    requires 0 <= price <= MAX_PRICE_PER_DAY && 1 <= days <= 30
    ensures 0 <= price * days <= MAX_AMOUNT
  {
    assert price * days <= price * 30;
  }

  lemma AmountIsProduct(t: Tables, r: int)
    requires Joined(t, r) && ParseDate(t.reservations[r].start).Some? && ParseDate(t.reservations[r].end).Some?
    ensures Amount(t, r) == t.cars[t.reservations[r].car].price
                            * (DayNumber(ParseDate(t.reservations[r].end).value)
                               - DayNumber(ParseDate(t.reservations[r].start).value) + 1)
  {
  }

  /** A reservation's amount is its car's price times its inclusive days, within bounds. */
  lemma AmountIsBounded(t: Tables, r: int)
    requires RowsOk(t) && r in t.reservations && DatesOk(t.reservations[r])
    ensures Joined(t, r)
    ensures Amount(t, r) == t.cars[t.reservations[r].car].price
                            * (DayNumber(ParseDate(t.reservations[r].end).value)
                               - DayNumber(ParseDate(t.reservations[r].start).value) + 1)
    ensures 0 <= Amount(t, r) <= 3_000_000_000
  {
    AmountIsProduct(t, r);
    PriceTimesDays(t.cars[t.reservations[r].car].price,
                   DayNumber(ParseDate(t.reservations[r].end).value)
                   - DayNumber(ParseDate(t.reservations[r].start).value) + 1);
  }

  lemma MoreIsMore(n: nat)
    requires n > 0
    ensures MAX_AMOUNT * (n - 1) + MAX_AMOUNT == MAX_AMOUNT * n
  {
  }

  lemma AmountsAreBounded(t: Tables)
    requires RowsOk(t) && AllDatesOk(t.reservations)
    ensures forall r :: 0 <= Amount(t, r) <= MAX_AMOUNT
  {
    forall r ensures 0 <= Amount(t, r) <= MAX_AMOUNT {
      if r in t.reservations {
        AmountIsBounded(t, r);
      }
    }
  }

  lemma {:induction false} SumIsBounded(t: Tables, ids: set<int>, n: nat)
    requires forall r :: 0 <= Amount(t, r) <= MAX_AMOUNT
    ensures 0 <= SumBelow(t, ids, n) <= MAX_AMOUNT * n
  {
    if n > 0 {
      SumIsBounded(t, ids, n - 1);
      MoreIsMore(n);
    }
  }

  /** In every reachable state approved_total is the sum of price times inclusive days over
      exactly the confirmed reservations, each at most 3,000,000,000; so it is exact in 64
      bits for the first 3,000,000,000 reservations. */
  lemma TotalIsOverConfirmed(events: seq<Event>)
    ensures var t := After(events);
            ApprovedTotal(t) == SumBelow(t, ConfirmedIds(t), t.nextReservation)
    ensures After(events).nextReservation <= 3_000_000_000 ==> 0 <= ApprovedTotal(After(events)) < 0x8000_0000_0000_0000
  {
    var t := After(events);
    AfterRowsOk(events);
    StoredDatesAreOk(events);
    ApprovedIsPaidSum(t, t.nextPayment);
    PaidAreConfirmed(events);
    AmountsAreBounded(t);
    SumIsBounded(t, ConfirmedIds(t), t.nextReservation);
  }
}
