// The other half of the automaton: whatever it allows, some run does, with requests one at
// a time and every caller authenticated. One account that sells, books and administers is
// enough to show it.
module Reachable {
  import opened Common
  import opened Calendar
  import opened Store
  import opened Booking
  import opened Rows
  import opened Lifecycle
  import opened Trails
  import opened Accounts
  import Phone
  import Shapes
  import Availability

  const ME := Actor(1, {Buyer, Seller, Admin})
  const NUMBER := PhoneInput("+50581234567", "505", 8)
  const DAY: Day := Date(2030, 1, 1)

  /** An allow-listed account with a phone, its car, and its own booking of that car. */
  function Opening(): seq<Event>
  {
    [ Event(Actor(0, {}), Register("a@example.com", NUMBER, true)),
      Event(ME, CreateCar("Car", "", 50)),
      Event(ME, CreateReservation(1, Format(DAY), Format(DAY), DAY)) ]
  }

  function EventOf(m: Move): Event
  {
    Event(ME,
      match m
      case MoveCreate => CreateReservation(1, Format(DAY), Format(DAY), DAY)
      case MoveCancel => CancelReservation(1)
      case MoveAccept => AcceptReservation(1)
      case MoveReject => RejectReservation(1)
      case MovePay => RecordPayment(1, Pos, "")
      case MoveResubmit => RecordPayment(1, Cash, "")
      case MoveConfirm => ConfirmReservation(1)
      case MoveCorrect => RequestCorrection(1))
  }

  /** Account 1 has every role and is both sides of reservation 1. */
  predicate Scene(t: Tables)
  {
    1 in t.users && t.users[1].roles == ME.roles && t.users[1].suspendedAt.None?
    && Joined(t, 1) && t.reservations[1].buyer == 1 && OwnerOf(t, 1) == 1
  }

  /** The opening's booking, of car 1 for the day itself. */
  predicate BooksToday(t: Tables)
  {
    1 in t.reservations && t.reservations[1].car == 1 && t.reservations[1].end == Format(DAY)
      && Blocking(t.reservations[1].status)
  }

  lemma AfterOne(events: seq<Event>, e: Event)
    ensures After(events + [e]) == Commit(After(events), e)
    ensures OneAtATime(events + [e]) <==> OneAtATime(events) && Fresh(After(events), e)
    ensures Moves(events + [e], 1) == Moves(events, 1)
              + match MoveOf(After(events), e, 1) case Some(m) => [m] case None => []
  {
    assert (events + [e])[..|events|] == events;
  }

  lemma NumberIsCanonical()
    ensures Normalized(NUMBER) == Some(NUMBER.raw)
  {
    Phone.CanonicalIsFixed(NUMBER.raw, NUMBER.cc, NUMBER.nationalLen);
  }

  function Registered(): Tables
  {
    EmptyTables().(users := map[1 := User("a@example.com", NUMBER.raw, ME.roles, None)], nextUser := 2)
  }

  function Listed(): Tables
  {
    Registered().(cars := map[1 := Car(1, "Car", "", 50, true)], nextCar := 2)
  }

  lemma RegisterFirst()
    ensures Commit(EmptyTables(), Opening()[0]) == Registered()
  {
    NumberIsCanonical();
    assert UserByEmail(EmptyTables().users, "a@example.com") == {};
    assert {Buyer} + {Seller} + {Admin} == ME.roles;
  }

  lemma ListThen()
    ensures Commit(Registered(), Opening()[1]) == Listed()
  {
  }

  lemma DayIsBookable()
    ensures DateError(Format(DAY), Format(DAY), DAY).None?
  {
    FormatIsParsed(DAY);
    NotLessItself(Format(DAY));
    CapIsThirtyInclusiveDays(DAY, DAY);
  }

  lemma BookListed(start: string, end: string)
    ensures Create(Listed(), ME, 1, start, end).Done? && Scene(Create(Listed(), ME, 1, start, end).t)
    ensures end == Format(DAY) ==> BooksToday(Create(Listed(), ME, 1, start, end).t)
  {
    assert Overlapping(Listed().reservations, 1, start, end) == {};
  }

  lemma BookingIsCreate(t: Tables, start: string, end: string, today: Day)
    requires 1 in t.users && DateError(start, end, today).None?
    ensures Perform(t, Event(ME, CreateReservation(1, start, end, today))) == Create(t, ME, 1, start, end)
  {
  }

  lemma BookThen()
    ensures Perform(Listed(), Opening()[2]).Done?
    ensures Scene(Commit(Listed(), Opening()[2])) && BooksToday(Commit(Listed(), Opening()[2]))
    ensures MoveOf(Listed(), Opening()[2], 1) == Some(MoveCreate)
  {
    DayIsBookable();
    BookListed(Format(DAY), Format(DAY));
    BookingIsCreate(Listed(), Format(DAY), Format(DAY), DAY);
  }

  /** Each opening request does what the scene needs, one at a time. */
  lemma OpeningSetsScene()
    ensures OneAtATime(Opening()) && Moves(Opening(), 1) == [MoveCreate]
    ensures Scene(After(Opening())) && BooksToday(After(Opening()))
  {
    var a, b, c := Opening()[0], Opening()[1], Opening()[2];
    assert [] + [a] == [a] && [a] + [b] == [a, b] && [a, b] + [c] == Opening();
    RegisterFirst();
    ListThen();
    BookThen();
    AfterOne([], a);
    AfterOne([a], b);
    AfterOne([a, b], c);
  }

  // ---------- Every move the automaton allows can be played ----------

  /** What the handler of a move answers to account 1. */
  function Answer(t: Tables, m: Move): Outcome
  {
    match m
    case MoveCreate => Create(t, ME, 1, Format(DAY), Format(DAY))
    case MoveCancel => Cancel(t, ME, 1)
    case MoveAccept => Accept(t, ME, 1)
    case MoveReject => Reject(t, ME, 1)
    case MovePay => Pay(t, ME, 1, Pos, "")
    case MoveResubmit => Pay(t, ME, 1, Cash, "")
    case MoveConfirm => Confirm(t, ME, 1)
    case MoveCorrect => Correct(t, ME, 1)
  }

  lemma HandlerAnswers(t: Tables, m: Move)
    requires 1 in t.users && !m.MoveCreate?
    ensures Perform(t, EventOf(m)) == Answer(t, m)
  {
  }

  lemma HandlersAccept(t: Tables, m: Move)
    requires RowsOk(t) && Scene(t) && Next(LifeOf(t, 1), m).Some?
    ensures !m.MoveCreate? && Answer(t, m).Done?
    ensures m.MovePay? ==> PaymentRowOf(t, 1).None?
    ensures m.MoveResubmit? ==> PaymentRowOf(t, 1).Some?
  {
    CountsPayments(t, 1);
    assert PaymentsOf(t.payments, 1) != {} <==> PaymentRowOf(t, 1).Some?;
  }

  lemma SceneStays(t: Tables, e: Event)
    requires RowsOk(t) && Scene(t) && OnBooking(e.request)
    ensures Scene(Commit(t, e))
  {
    PartiesStay(t, e, 1);
    Shapes.StepShape(t, e);
  }

  lemma MoveIsMade(t: Tables, m: Move)
    requires Perform(t, EventOf(m)).Done? && !m.MoveCreate?
    requires m.MovePay? ==> PaymentRowOf(t, 1).None?
    requires m.MoveResubmit? ==> PaymentRowOf(t, 1).Some?
    ensures MoveOf(t, EventOf(m), 1) == Some(m) && OnBooking(EventOf(m).request)
  {
  }

  /** A move the automaton allows is made by account 1's request for it. */
  ghost predicate Plays(t: Tables, e: Event, m: Move)
  {
    Fresh(t, e) && MoveOf(t, e, 1) == Some(m) && Scene(Commit(t, e))
  }

  lemma Playable(t: Tables, m: Move)
    requires RowsOk(t) && Scene(t) && Next(LifeOf(t, 1), m).Some?
    ensures Plays(t, EventOf(m), m)
  {
    HandlersAccept(t, m);
    assert Perform(t, EventOf(m)).Done? by { HandlerAnswers(t, m); }
    MoveIsMade(t, m);
    SceneStays(t, EventOf(m));
  }

  /** The run that makes these moves after the opening. */
  function RunFor(moves: seq<Move>): seq<Event>
  {
    if moves == [] then Opening() else RunFor(moves[..|moves| - 1]) + [EventOf(moves[|moves| - 1])]
  }

  ghost predicate MadeBy(moves: seq<Move>, events: seq<Event>)
  {
    OneAtATime(events) && Moves(events, 1) == moves
  }

  lemma OneMorePlayed(moves: seq<Move>, events: seq<Event>, e: Event, m: Move)
    requires MadeBy(moves, events) && Plays(After(events), e, m)
    ensures MadeBy(moves + [m], events + [e]) && Scene(After(events + [e]))
  {
    AfterOne(events, e);
  }

  /** The automaton after one more move. */
  lemma LifeStep(moves: seq<Move>, m: Move)
    ensures LifeAfter(moves + [m]) == match LifeAfter(moves) case Some(l) => Next(l, m) case None => None
  {
    assert (moves + [m])[..|moves|] == moves;
  }

  lemma PlayOne(moves: seq<Move>, events: seq<Event>, m: Move)
    requires MadeBy(moves, events) && Scene(After(events)) && LifeAfter(moves + [m]).Some?
    ensures MadeBy(moves + [m], events + [EventOf(m)]) && Scene(After(events + [EventOf(m)]))
  {
    LifeStep(moves, m);
    RunsProject(events, 1);
    AfterRowsOk(events);
    Playable(After(events), m);
    OneMorePlayed(moves, events, EventOf(m), m);
  }

  lemma {:induction false} RunPlays(moves: seq<Move>)
    requires LifeAfter([MoveCreate] + moves).Some?
    ensures MadeBy([MoveCreate] + moves, RunFor(moves)) && Scene(After(RunFor(moves)))
  {
    if moves == [] {
      OpeningSetsScene();
      assert [MoveCreate] + moves == [MoveCreate];
    } else {
      var front, m := moves[..|moves| - 1], moves[|moves| - 1];
      assert [MoveCreate] + moves == ([MoveCreate] + front) + [m];
      LifeStep([MoveCreate] + front, m);
      RunPlays(front);
      PlayOne([MoveCreate] + front, RunFor(front), m);
    }
  }

  lemma {:induction false} CreationIsFirst(moves: seq<Move>)
    requires moves != [] && LifeAfter(moves).Some?
    ensures moves[0] == MoveCreate
  {
    if |moves| > 1 {
      CreationIsFirst(moves[..|moves| - 1]);
    }
  }

  /** A sequence of moves is what some run makes on a reservation, with requests one at a
      time, exactly when the automaton allows it. */
  lemma MovesAreExactly(moves: seq<Move>)
    ensures (exists events :: MadeBy(moves, events)) <==> LifeAfter(moves).Some?
  {
    forall events | MadeBy(moves, events) ensures LifeAfter(moves).Some? {
      RunsProject(events, 1);
    }
    if LifeAfter(moves).Some? {
      if moves == [] {
        NothingMadeByNothing();
      } else {
        CreationIsFirst(moves);
        assert moves == [MoveCreate] + moves[1..];
        RunPlays(moves[1..]);
      }
    }
  }

  lemma NothingMadeByNothing()
    ensures MadeBy([], [])
  {
  }

  // ---------- Pairs ----------

  /** Moves that lead to a coupled pair. */
  function PathTo(status: Status, pay: Option<PayStatus>): seq<Move>
    requires Coupled(status, pay)
  {
    match status
    case Pending => [MoveCreate] + if pay.None? then [] else [MovePay]
    case Cancelled => [MoveCreate, MoveCancel]
    case Rejected => [MoveCreate] + (if pay.None? then [] else [MovePay]) + [MoveReject]
    case Confirmed => [MoveCreate, MoveAccept, MovePay, MoveConfirm]
    case Accepted =>
      [MoveCreate, MoveAccept] + if pay.None? then [] else if pay == Some(PayPending) then [MovePay]
        else [MovePay, MoveCorrect]
  }

  lemma PathLeads(status: Status, pay: Option<PayStatus>)
    requires Coupled(status, pay)
    ensures LifeAfter(PathTo(status, pay)) == Some(Booked(status, pay))
  {
    var a, b := [MoveCreate], [MoveCreate, MoveAccept];
    LifeStep([], MoveCreate);
    LifeStep(a, MoveAccept);
    assert [] + [MoveCreate] == a && a + [MoveAccept] == b;
    match status
    case Pending =>
      LifeStep(a, MovePay);
      assert pay.Some? ==> pay.value == PayPending;
      assert PathTo(status, pay) == if pay.None? then a else a + [MovePay];
    case Cancelled => LifeStep(a, MoveCancel); assert a + [MoveCancel] == PathTo(status, pay);
    case Rejected =>
      LifeStep(a, MovePay);
      LifeStep(a + [MovePay], MoveReject);
      LifeStep(a, MoveReject);
      assert a + [] == a;
    case Confirmed =>
      LifeStep(b, MovePay);
      LifeStep(b + [MovePay], MoveConfirm);
      assert b + [MovePay] + [MoveConfirm] == PathTo(status, pay);
    case Accepted =>
      LifeStep(b, MovePay);
      LifeStep(b + [MovePay], MoveCorrect);
      assert b + [MovePay] + [MoveCorrect] == b + [MovePay, MoveCorrect];
      assert PathTo(status, pay)
          == if pay.None? then b else if pay.value == PayPending then b + [MovePay] else b + [MovePay] + [MoveCorrect];
  }

  ghost predicate IsReached(status: Status, pay: Option<PayStatus>, events: seq<Event>)
  {
    OneAtATime(events) && LifeOf(After(events), 1) == Booked(status, pay)
  }

  /** The reachable pairs of a reservation's status and its payment's are exactly the nine
      coupled ones. */
  lemma PairsAreExactly(status: Status, pay: Option<PayStatus>)
    ensures (exists events :: IsReached(status, pay, events)) <==> Coupled(status, pay)
  {
    forall events | IsReached(status, pay, events) ensures Coupled(status, pay) {
      StatusesAreCoupled(events, 1);
    }
    if Coupled(status, pay) {
      PathLeads(status, pay);
      MovesAreExactly(PathTo(status, pay));
      var events :| MadeBy(PathTo(status, pay), events);
      RunsProject(events, 1);
      assert IsReached(status, pay, events);
    }
  }

  // ---------- Words ----------

  /** Created, accepted, paid, then n times sent back and resubmitted. */
  function ReviewMoves(n: nat): seq<Move>
  {
    if n == 0 then [MoveCreate, MoveAccept, MovePay] else ReviewMoves(n - 1) + [MoveCorrect] + [MoveResubmit]
  }

  function ReviewWord(n: nat): seq<Action>
  {
    [AuditAccept] + seq(n, i => AuditRequestCorrection)
  }

  lemma LogStep(moves: seq<Move>, m: Move)
    ensures Logs(moves + [m]) == Logs(moves) + LoggedAs(Some(m))
  {
    assert (moves + [m])[..|moves|] == moves;
  }

  lemma FirstReview()
    ensures LifeAfter(ReviewMoves(0)) == Some(Booked(Accepted, Some(PayPending)))
    ensures Logs(ReviewMoves(0)) == [AuditAccept]
  {
    PathLeads(Accepted, Some(PayPending));
    assert [MoveCreate, MoveAccept] + [MovePay] == ReviewMoves(0);
    LogStep([], MoveCreate);
    LogStep([MoveCreate], MoveAccept);
    LogStep([MoveCreate, MoveAccept], MovePay);
    assert [] + [MoveCreate] == [MoveCreate] && [MoveCreate] + [MoveAccept] == [MoveCreate, MoveAccept];
  }

  lemma NextReview(moves: seq<Move>)
    requires LifeAfter(moves) == Some(Booked(Accepted, Some(PayPending)))
    ensures LifeAfter(moves + [MoveCorrect] + [MoveResubmit]) == Some(Booked(Accepted, Some(PayPending)))
    ensures Logs(moves + [MoveCorrect] + [MoveResubmit]) == Logs(moves) + [AuditRequestCorrection]
  {
    LifeStep(moves, MoveCorrect);
    LifeStep(moves + [MoveCorrect], MoveResubmit);
    LogStep(moves, MoveCorrect);
    LogStep(moves + [MoveCorrect], MoveResubmit);
  }

  lemma ReviewGrows(n: nat)
    ensures ReviewWord(n) + [AuditRequestCorrection] == ReviewWord(n + 1)
    ensures ReviewMoves(n + 1) == ReviewMoves(n) + [MoveCorrect] + [MoveResubmit]
  {
  }

  lemma {:induction false} ReviewLogs(n: nat)
    ensures LifeAfter(ReviewMoves(n)) == Some(Booked(Accepted, Some(PayPending)))
    ensures Logs(ReviewMoves(n)) == ReviewWord(n)
  {
    if n == 0 {
      FirstReview();
      assert ReviewWord(0) == [AuditAccept];
    } else {
      ReviewLogs(n - 1);
      NextReview(ReviewMoves(n - 1));
      ReviewGrows(n - 1);
    }
  }

  /** Moves that log a word. */
  function MovesFor(word: seq<Action>): seq<Move>
    requires IsWord(word)
  {
    if word == [] then [MoveCreate]
    else if word == [AuditCancel] then [MoveCreate] + [MoveCancel]
    else if word == [AuditReject] then [MoveCreate] + [MoveReject]
    else if word[|word| - 1] == AuditConfirm then ReviewMoves(|word| - 2) + [MoveConfirm]
    else ReviewMoves(|word| - 1)
  }

  lemma ReviewSplits(word: seq<Action>)
    requires IsReview(word)
    ensures word == if word[|word| - 1] == AuditConfirm then ReviewWord(|word| - 2) + [AuditConfirm]
                    else ReviewWord(|word| - 1)
  {
    var n := if word[|word| - 1] == AuditConfirm then |word| - 2 else |word| - 1;
    assert forall i | 0 <= i <= n :: word[i] == ReviewWord(n)[i];
  }

  lemma ReviewConfirms(n: nat)
    ensures LifeAfter(ReviewMoves(n) + [MoveConfirm]).Some?
    ensures Logs(ReviewMoves(n) + [MoveConfirm]) == ReviewWord(n) + [AuditConfirm]
  {
    ReviewLogs(n);
    LifeStep(ReviewMoves(n), MoveConfirm);
    LogStep(ReviewMoves(n), MoveConfirm);
  }

  lemma ReviewIsLogged(word: seq<Action>)
    requires IsReview(word)
    ensures LifeAfter(MovesFor(word)).Some? && Logs(MovesFor(word)) == word
  {
    ReviewSplits(word);
    if word[|word| - 1] == AuditConfirm {
      ReviewConfirms(|word| - 2);
      assert MovesFor(word) == ReviewMoves(|word| - 2) + [MoveConfirm];
    } else {
      ReviewLogs(|word| - 1);
      assert MovesFor(word) == ReviewMoves(|word| - 1);
    }
  }

  lemma MovesLogWord(word: seq<Action>)
    requires IsWord(word)
    ensures LifeAfter(MovesFor(word)).Some? && Logs(MovesFor(word)) == word
  {
    if IsReview(word) {
      ReviewIsLogged(word);
    } else {
      LifeStep([], MoveCreate);
      LogStep([], MoveCreate);
      assert [] + [MoveCreate] == [MoveCreate];
      LifeStep([MoveCreate], MoveCancel);
      LogStep([MoveCreate], MoveCancel);
      LifeStep([MoveCreate], MoveReject);
      LogStep([MoveCreate], MoveReject);
    }
  }

  ghost predicate IsLogged(word: seq<Action>, events: seq<Event>)
  {
    OneAtATime(events) && Word(After(events).audit, 1) == word
  }

  /** The words the audit log can hold about a reservation are exactly
      (nothing | cancel | reject | accept request_correction* [confirm]). */
  lemma WordsAreExactly(word: seq<Action>)
    ensures (exists events :: IsLogged(word, events)) <==> IsWord(word)
  {
    forall events | IsLogged(word, events) ensures IsWord(word) {
      LogTellsStatus(events, 1);
    }
    if IsWord(word) {
      MovesLogWord(word);
      MovesAreExactly(MovesFor(word));
      var events :| MadeBy(MovesFor(word), events);
      LogIsItsMoves(events, 1);
      assert IsLogged(word, events);
    }
  }

  // ---------- What the override breaks ----------

  lemma UnpublishedIsInactive(t: Tables, e: Event)
    requires Scene(t) && t.reservations[1].car == 1
    requires e == Event(ME, AdminPatchCar(1, Patch(None, None, None, Some(false))))
    ensures Commit(t, e).reservations == t.reservations && 1 in Commit(t, e).cars && !Commit(t, e).cars[1].active
  {
  }

  lemma TodayRuns(r: Reservation)
    requires r.end == Format(DAY) && Blocking(r.status)
    ensures Availability.RunsOn(r, DAY)
  {
    FormatIsParsed(DAY);
  }

  lemma InactiveWithBooking(t: Tables)
    requires BooksToday(t) && 1 in t.cars && !t.cars[1].active
    ensures !Availability.NothingAhead(t, DAY)
  {
    TodayRuns(t.reservations[1]);
    assert Joined(t, 1);
  }

  lemma UnpublishingLeavesBooking(t: Tables, e: Event)
    requires Scene(t) && BooksToday(t) && e == Event(ME, AdminPatchCar(1, Patch(None, None, None, Some(false))))
    ensures Fresh(t, e) && !Availability.NothingAhead(Commit(t, e), DAY)
  {
    UnpublishedIsInactive(t, e);
    InactiveWithBooking(Commit(t, e));
  }

  /** The administrator's override is the exception: after it unpublishes the car of the
      opening, that inactive car still has a booking ahead. */
  lemma OverrideLeavesBookingAhead()
    ensures var events := Opening() + [Event(ME, AdminPatchCar(1, Patch(None, None, None, Some(false))))];
            OneAtATime(events) && !Availability.NothingAhead(After(events), DAY)
  {
    var e := Event(ME, AdminPatchCar(1, Patch(None, None, None, Some(false))));
    OpeningSetsScene();
    UnpublishingLeavesBooking(After(Opening()), e);
    AfterOne(Opening(), e);
  }
}
