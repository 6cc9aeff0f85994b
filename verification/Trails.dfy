// The audit log and the notifications, seen from one reservation.
module Trails {
  import opened Common
  import opened Store
  import opened Booking
  import opened Shapes
  import opened Rows
  import opened Lifecycle

  // ---------- The audit log ----------

  /** The actions logged on a reservation, in order. */
  function Word(audit: seq<Entry>, id: int): seq<Action>
  {
    if audit == [] then []
    else
      var last := audit[|audit| - 1];
      Word(audit[..|audit| - 1], id) + if last.target == OnReservation(id) then [last.action] else []
  }

  function LoggedAs(m: Option<Move>): seq<Action>
  {
    match m
    case Some(MoveCancel) => [AuditCancel]
    case Some(MoveAccept) => [AuditAccept]
    case Some(MoveReject) => [AuditReject]
    case Some(MoveConfirm) => [AuditConfirm]
    case Some(MoveCorrect) => [AuditRequestCorrection]
    case _ => []
  }

  /** The status a word of actions leads to from pending. */
  function StatusOf(word: seq<Action>): Status
  {
    if word == [] then Pending
    else
      match word[|word| - 1]
      case AuditAccept => Accepted
      case AuditReject => Rejected
      case AuditCancel => Cancelled
      case AuditConfirm => Confirmed
      case _ => StatusOf(word[..|word| - 1])
  }

  /** accept, then requests for correction, then at most one confirmation */
  predicate IsReview(word: seq<Action>)
  {
    |word| >= 1 && word[0] == AuditAccept
    && forall i | 1 <= i < |word| :: word[i] == AuditRequestCorrection || (word[i] == AuditConfirm && i == |word| - 1)
  }

  predicate IsWord(word: seq<Action>)
  {
    word == [] || word == [AuditCancel] || word == [AuditReject] || IsReview(word)
  }

  lemma WordAppends(audit: seq<Entry>, e: Entry, id: int)
    ensures Word(audit + [e], id) == Word(audit, id) + if e.target == OnReservation(id) then [e.action] else []
  {
    assert (audit + [e])[..|audit|] == audit;
  }

  /** The action a transition logs, and on which reservation. */
  function ActionOf(r: Request): Option<(Action, int)>
  {
    match r
    case CancelReservation(id) => Some((AuditCancel, id))
    case AcceptReservation(id) => Some((AuditAccept, id))
    case RejectReservation(id) => Some((AuditReject, id))
    case ConfirmReservation(id) => Some((AuditConfirm, id))
    case RequestCorrection(id) => Some((AuditRequestCorrection, id))
    case _ => None
  }

  function EntriesOf(u: Actor, r: Request): seq<Entry>
  {
    match ActionOf(r)
    case Some((action, id)) => [Entry(u.id, action, OnReservation(id))]
    case None => []
  }

  lemma BookingLogs(t: Tables, u: Actor, r: Request)
    requires OnBooking(r) && BookingOutcome(t, u, r).Done?
    ensures BookingOutcome(t, u, r).t.audit == t.audit + EntriesOf(u, r)
  {
  }

  lemma ActionIsMove(t: Tables, r: Request, id: int)
    ensures LoggedAs(MoveBy(t, r, id))
         == match ActionOf(r) case Some((action, about)) => (if about == id then [action] else []) case None => []
  {
  }

  lemma EntriesAreMoves(t: Tables, u: Actor, r: Request, id: int)
    requires OnBooking(r)
    ensures Word(t.audit + EntriesOf(u, r), id) == Word(t.audit, id) + LoggedAs(MoveBy(t, r, id))
  {
    ActionIsMove(t, r, id);
    match ActionOf(r)
    case Some((action, about)) => WordAppends(t.audit, Entry(u.id, action, OnReservation(about)), id);
    case None => assert t.audit + [] == t.audit && Word(t.audit, id) + [] == Word(t.audit, id);
  }

  lemma {:induction false} OtherEntriesAreUnlogged(before: seq<Entry>, after: seq<Entry>, id: int)
    requires Grew(before, after, (x: Target) => !x.OnReservation?)
    ensures Word(after, id) == Word(before, id)
  {
    if |after| > |before| {
      assert after == before + [after[|before|]];
      WordAppends(before, after[|before|], id);
    } else {
      assert after == before;
    }
  }

  lemma StepLogs(t: Tables, e: Event, id: int)
    requires RowsOk(t)
    ensures Word(Commit(t, e).audit, id) == Word(t.audit, id) + LoggedAs(MoveOf(t, e, id))
  {
    if OnBooking(e.request) && Perform(t, e).Done? {
      BookingLogs(t, e.actor, e.request);
      EntriesAreMoves(t, e.actor, e.request, id);
    } else {
      StepShape(t, e);
      OtherEntriesAreUnlogged(t.audit, Commit(t, e).audit, id);
    }
  }

  /** The word of a reservation fits its life. */
  ghost predicate Tells(word: seq<Action>, l: Life)
  {
    IsWord(word) && (l.Unbooked? ==> word == []) && (l.Booked? ==> StatusOf(word) == l.status)
  }

  lemma {:induction false} ReviewStatus(word: seq<Action>)
    requires IsReview(word)
    ensures StatusOf(word) == if word[|word| - 1] == AuditConfirm then Confirmed else Accepted
  {
    if |word| > 1 && word[|word| - 1] != AuditConfirm {
      ReviewStatus(word[..|word| - 1]);
    }
  }

  lemma MoveTells(word: seq<Action>, l: Life, m: Move)
    requires Tells(word, l) && Next(l, m).Some?
    ensures Tells(word + LoggedAs(Some(m)), Next(l, m).value)
  {
    var longer := word + LoggedAs(Some(m));
    if LoggedAs(Some(m)) == [] {
      assert longer == word;
    } else {
      assert longer[..|word|] == word;
      if IsReview(word) {
        ReviewStatus(word);
        assert IsReview(longer);
        ReviewStatus(longer);
      } else {
        assert word == [];
      }
    }
  }

  /** In every reachable state the actions logged on a reservation form one word of
      (nothing | cancel | reject | accept request_correction* [confirm]), and folding that
      word gives the reservation's status. */
  lemma {:induction false} LogTellsStatus(events: seq<Event>, id: int)
    ensures Tells(Word(After(events).audit, id), LifeOf(After(events), id))
  {
    if events != [] {
      var front := events[..|events| - 1];
      var t, m := After(front), MoveOf(After(front), events[|events| - 1], id);
      LogTellsStatus(front, id);
      AfterRowsOk(front);
      StepLogs(t, events[|events| - 1], id);
      StepIsMove(t, events[|events| - 1], id);
      if m.Some? {
        MoveTells(Word(t.audit, id), LifeOf(t, id), m.value);
      } else {
        assert Word(t.audit, id) + [] == Word(t.audit, id);
      }
    }
  }

  /** What a sequence of moves logs. */
  function Logs(moves: seq<Move>): seq<Action>
  {
    if moves == [] then [] else Logs(moves[..|moves| - 1]) + LoggedAs(Some(moves[|moves| - 1]))
  }

  /** The log of a reservation is what its moves log, no more and no less. */
  lemma {:induction false} LogIsItsMoves(events: seq<Event>, id: int)
    ensures Word(After(events).audit, id) == Logs(Moves(events, id))
  {
    if events != [] {
      var front := events[..|events| - 1];
      LogIsItsMoves(front, id);
      AfterRowsOk(front);
      StepLogs(After(front), events[|events| - 1], id);
      if MoveOf(After(front), events[|events| - 1], id).Some? {
        assert Moves(events, id)[..|Moves(front, id)|] == Moves(front, id);
      } else {
        assert Word(After(front).audit, id) + [] == Word(After(front).audit, id);
      }
    }
  }

  // ---------- Who signed ----------

  /** The role and the request that an action on a reservation demands. */
  function Duty(action: Action, id: int): Option<(Role, Request)>
  {
    match action
    case AuditCancel => Some((Buyer, CancelReservation(id)))
    case AuditAccept => Some((Seller, AcceptReservation(id)))
    case AuditReject => Some((Seller, RejectReservation(id)))
    case AuditConfirm => Some((Admin, ConfirmReservation(id)))
    case AuditRequestCorrection => Some((Admin, RequestCorrection(id)))
    case _ => None
  }

  /** Somewhere in the run the user sent the request, authenticated with the role. */
  ghost predicate SentBy(events: seq<Event>, user: int, duty: (Role, Request))
  {
    exists k :: 0 <= k < |events| && events[k].actor.id == user && duty.0 in events[k].actor.roles
      && events[k].request == duty.1
  }

  /** The signature the transition demands: the right request with the right role, by the
      buyer to cancel and by the car's owner to accept or reject. */
  ghost predicate ProperlySigned(t: Tables, events: seq<Event>, entry: Entry)
    requires entry.target.OnReservation?
  {
    var id := entry.target.reservation;
    && Joined(t, id)
    && Duty(entry.action, id).Some?
    && SentBy(events, entry.actor, Duty(entry.action, id).value)
    && (entry.action == AuditCancel ==> entry.actor == t.reservations[id].buyer)
    && (entry.action == AuditAccept || entry.action == AuditReject ==> entry.actor == OwnerOf(t, id))
  }

  lemma PartiesStay(t: Tables, e: Event, id: int)
    requires RowsOk(t) && id in t.reservations
    ensures Joined(t, id) && Joined(Commit(t, e), id)
    ensures Commit(t, e).reservations[id].buyer == t.reservations[id].buyer
    ensures OwnerOf(Commit(t, e), id) == OwnerOf(t, id)
  {
    StepIsMove(t, e, id);
    OwnersStay(t, e);
  }

  lemma OwnersStay(t: Tables, e: Event)
    requires RowsOk(t)
    ensures forall c | c in t.cars && c in Commit(t, e).cars :: Commit(t, e).cars[c].owner == t.cars[c].owner
  {
    if !OnListing(e.request) && Perform(t, e).Done? {
      if OnBooking(e.request) {
        BookingShape(t, e.actor, e.request);
      } else {
        AccountShape(t, e.actor, e.request);
      }
    }
  }

  /** The parties a transition's guards let through. */
  ghost predicate GuardedBy(t: Tables, u: Actor, action: Action, id: int)
  {
    && Joined(t, id)
    && (action == AuditCancel ==> u.id == t.reservations[id].buyer)
    && (action == AuditAccept || action == AuditReject ==> u.id == OwnerOf(t, id))
  }

  lemma BookingGuards(t: Tables, u: Actor, r: Request)
    requires RowsOk(t) && OnBooking(r) && BookingOutcome(t, u, r).Done? && ActionOf(r).Some?
    ensures GuardedBy(t, u, ActionOf(r).value.0, ActionOf(r).value.1)
  {
  }

  lemma DoneHasRole(t: Tables, e: Event)
    requires Perform(t, e).Done?
    ensures RouteRole(e.request).Some? ==> RouteRole(e.request).value in e.actor.roles
  {
  }

  lemma ActionIsDuty(r: Request)
    requires ActionOf(r).Some?
    ensures RouteRole(r).Some? && Duty(ActionOf(r).value.0, ActionOf(r).value.1) == Some((RouteRole(r).value, r))
  {
  }

  lemma SignedByGuard(t: Tables, e: Event, action: Action, id: int)
    requires GuardedBy(t, e.actor, action, id) && Duty(action, id).Some? && e.request == Duty(action, id).value.1
    requires Duty(action, id).value.0 in e.actor.roles
    ensures ProperlySigned(t, [e], Entry(e.actor.id, action, OnReservation(id)))
  {
    assert [e][0] == e;
  }

  lemma NewEntrySigned(t: Tables, e: Event, n: Tables)
    requires RowsOk(t) && OnBooking(e.request) && BookingOutcome(t, e.actor, e.request) == Done(n)
    requires |n.audit| > |t.audit|
    requires RouteRole(e.request).Some? ==> RouteRole(e.request).value in e.actor.roles
    ensures n.audit[|t.audit|].target.OnReservation? && ProperlySigned(t, [e], n.audit[|t.audit|])
  {
    BookingLogs(t, e.actor, e.request);
    BookingGuards(t, e.actor, e.request);
    ActionIsDuty(e.request);
    var (action, id) := ActionOf(e.request).value;
    SignedByGuard(t, e, action, id);
  }

  lemma SignatureStays(t: Tables, events: seq<Event>, e: Event, entry: Entry)
    requires RowsOk(t) && entry.target.OnReservation? && ProperlySigned(t, events, entry)
    ensures ProperlySigned(Commit(t, e), events + [e], entry)
  {
    var id := entry.target.reservation;
    PartiesStay(t, e, id);
    assert forall k | 0 <= k < |events| :: (events + [e])[k] == events[k];
  }

  lemma FirstSignature(t: Tables, events: seq<Event>, e: Event)
    requires RowsOk(t) && OnBooking(e.request) && Perform(t, e).Done? && |Perform(t, e).t.audit| > |t.audit|
    ensures var entry := Perform(t, e).t.audit[|t.audit|];
            entry.target.OnReservation? && ProperlySigned(Commit(t, e), events + [e], entry)
  {
    DoneHasRole(t, e);
    NewEntrySigned(t, e, Perform(t, e).t);
    var entry := Perform(t, e).t.audit[|t.audit|];
    PartiesStay(t, e, entry.target.reservation);
    assert (events + [e])[|events|] == e;
  }

  lemma NewEntryIsBooking(t: Tables, e: Event, i: nat)
    requires |t.audit| <= i < |Commit(t, e).audit| && Commit(t, e).audit[i].target.OnReservation?
    ensures OnBooking(e.request) && Perform(t, e).Done? && i == |t.audit|
  {
    StepShape(t, e);
  }

  ghost predicate AllSigned(t: Tables, events: seq<Event>)
  {
    forall i | 0 <= i < |t.audit| && t.audit[i].target.OnReservation? :: ProperlySigned(t, events, t.audit[i])
  }

  lemma StepSigned(t: Tables, events: seq<Event>, e: Event)
    requires RowsOk(t) && AllSigned(t, events)
    ensures AllSigned(Commit(t, e), events + [e])
  {
    var n := Commit(t, e);
    assert t.audit <= n.audit by { StepShape(t, e); }
    forall i | 0 <= i < |n.audit| && n.audit[i].target.OnReservation?
      ensures ProperlySigned(n, events + [e], n.audit[i]) {
      if i < |t.audit| {
        SignatureStays(t, events, e, t.audit[i]);
      } else {
        NewEntryIsBooking(t, e, i);
        FirstSignature(t, events, e);
      }
    }
  }

  /** Every entry about a reservation is signed by the party its transition demands, who sent
      that very request with the role for it: the buyer to cancel, the owner of the car as a
      seller to accept or reject, an administrator to confirm or to ask for a correction. */
  lemma {:induction false} EntriesAreSigned(events: seq<Event>)
    ensures AllSigned(After(events), events)
  {
    if events != [] {
      var front, e := events[..|events| - 1], events[|events| - 1];
      EntriesAreSigned(front);
      AfterRowsOk(front);
      StepSigned(After(front), front, e);
      assert events == front + [e];
    }
  }

  // ---------- Who signed what else ----------

  /** The request behind an entry about an account or a car: the signer's own, as an
      administrator, and doing to that account or car what the entry says. */
  predicate Orders(entry: Entry, e: Event)
  {
    e.actor.id == entry.actor && Admin in e.actor.roles
    && match entry.target
       case OnReservation(_) => false
       case OnUser(id) =>
         (entry.action == AuditSuspend && e.request.SuspendUser? && e.request.id == id && e.request.suspended)
         || (entry.action == AuditUnsuspend && e.request.SuspendUser? && e.request.id == id && !e.request.suspended)
         || (entry.action == AuditGrantSeller && e.request.SetSeller? && e.request.id == id && e.request.seller)
         || (entry.action == AuditRevokeSeller && e.request.SetSeller? && e.request.id == id && !e.request.seller)
       case OnCar(id) =>
         (entry.action == AuditCarUpdate && e.request.AdminPatchCar? && e.request.id == id)
         || (entry.action == AuditCarDelete && e.request.AdminDropCar? && e.request.id == id)
  }

  lemma AccountOrders(t: Tables, e: Event)
    requires OnAccount(e.request) && Perform(t, e).Done? && |Perform(t, e).t.audit| > |t.audit|
    ensures Orders(Perform(t, e).t.audit[|t.audit|], e)
  {
  }

  lemma ListingOrders(t: Tables, e: Event)
    requires OnListing(e.request) && Perform(t, e).Done? && |Perform(t, e).t.audit| > |t.audit|
    ensures Orders(Perform(t, e).t.audit[|t.audit|], e)
  {
  }

  /** The entry about an account or a car that a successful request leaves, if any. */
  function Reported(t: Tables, e: Event): seq<Entry>
  {
    match e.request
    case SuspendUser(id, suspended, _) =>
      if id in t.users && suspended != t.users[id].suspendedAt.Some?
      then [Entry(e.actor.id, if suspended then AuditSuspend else AuditUnsuspend, OnUser(id))] else []
    case SetSeller(id, seller, _) =>
      if id in t.users && seller != (Seller in t.users[id].roles)
      then [Entry(e.actor.id, if seller then AuditGrantSeller else AuditRevokeSeller, OnUser(id))] else []
    case AdminPatchCar(id, _) => [Entry(e.actor.id, AuditCarUpdate, OnCar(id))]
    case AdminDropCar(id) => [Entry(e.actor.id, AuditCarDelete, OnCar(id))]
    case _ => []
  }

  /** What administrators do to accounts and cars is logged, suspensions and roles only when they
      change, and nothing else about accounts and cars is. */
  lemma OverridesAreLogged(t: Tables, e: Event)
    requires !OnBooking(e.request)
    ensures Commit(t, e).audit == if Perform(t, e).Done? then t.audit + Reported(t, e) else t.audit
  {
    if Perform(t, e).Done? && Reported(t, e) == [] {
      assert t.audit + [] == t.audit;
    }
  }

  ghost predicate OrderedBy(events: seq<Event>, entry: Entry)
  {
    exists k :: 0 <= k < |events| && Orders(entry, events[k])
  }

  ghost predicate AllOrdered(t: Tables, events: seq<Event>)
  {
    forall i | 0 <= i < |t.audit| && !t.audit[i].target.OnReservation? :: OrderedBy(events, t.audit[i])
  }

  lemma OrderStays(events: seq<Event>, e: Event, entry: Entry)
    requires OrderedBy(events, entry)
    ensures OrderedBy(events + [e], entry)
  {
    var k :| 0 <= k < |events| && Orders(entry, events[k]);
    assert (events + [e])[k] == events[k];
  }

  lemma NewEntryOrdered(t: Tables, events: seq<Event>, e: Event, i: nat)
    requires |t.audit| <= i < |Commit(t, e).audit| && !Commit(t, e).audit[i].target.OnReservation?
    ensures i == |t.audit| && OrderedBy(events + [e], Commit(t, e).audit[i])
  {
    StepShape(t, e);
    assert (events + [e])[|events|] == e;
    if OnListing(e.request) {
      ListingShape(t, e.actor, e.request);
      ListingOrders(t, e);
    } else if OnAccount(e.request) {
      AccountShape(t, e.actor, e.request);
      AccountOrders(t, e);
    }
  }

  lemma StepOrdered(t: Tables, events: seq<Event>, e: Event)
    requires AllOrdered(t, events)
    ensures AllOrdered(Commit(t, e), events + [e])
  {
    var n := Commit(t, e);
    assert t.audit <= n.audit by { StepShape(t, e); }
    forall i | 0 <= i < |n.audit| && !n.audit[i].target.OnReservation? ensures OrderedBy(events + [e], n.audit[i]) {
      if i < |t.audit| {
        OrderStays(events, e, t.audit[i]);
      } else {
        NewEntryOrdered(t, events, e, i);
      }
    }
  }

  /** Every entry about an account or a car is signed by an account that sent that very request
      as an administrator. */
  lemma {:induction false} OverridesAreSigned(events: seq<Event>)
    ensures AllOrdered(After(events), events)
  {
    if events != [] {
      var front, e := events[..|events| - 1], events[|events| - 1];
      OverridesAreSigned(front);
      StepOrdered(After(front), front, e);
      assert events == front + [e];
    }
  }

  // ---------- Notifications ----------

  /** The documented audience of each transition of a reservation: the administrators and
      the parties it concerns. */
  ghost function Audience(t: Tables, id: int, m: Move): set<int>
    requires Joined(t, id)
  {
    var admins := set u | u in t.users && 0 <= u < t.nextUser && Admin in t.users[u].roles;
    match m
    case MoveCreate => admins + {OwnerOf(t, id)}
    case MoveCancel => {OwnerOf(t, id)}
    case MoveAccept => {t.reservations[id].buyer}
    case MoveReject => admins + {t.reservations[id].buyer}
    case MoveConfirm => admins + {t.reservations[id].buyer, OwnerOf(t, id)}
    case MoveCorrect => {t.reservations[id].buyer}
    case MoveResubmit => admins
    case MovePay => {}
  }

  function Announces(m: Move): Option<Kind>
  {
    match m
    case MoveCreate => Some(NotifyRequested)
    case MoveCancel => Some(NotifyCancelled)
    case MoveAccept => Some(NotifyAccepted)
    case MoveReject => Some(NotifyRejected)
    case MoveConfirm => Some(NotifyConfirmed)
    case MoveCorrect => Some(NotifyCorrectionRequested)
    case MoveResubmit => Some(NotifyCorrectionSubmitted)
    case MovePay => None
  }

  lemma {:induction false} FanOut(ids: seq<int>, kind: Kind, id: int, note: Note)
    ensures multiset(NotesFor(Dedup(ids), kind, id))[note]
         == if note.kind == kind && note.reservation == id && note.user in ids then 1 else 0
  {
    if ids != [] {
      var front, last := ids[..|ids| - 1], ids[|ids| - 1];
      FanOut(front, kind, id, note);
      assert ids == front + [last];
      if last !in front {
        assert NotesFor(Dedup(ids), kind, id) == NotesFor(Dedup(front), kind, id) + [Note(last, kind, id)];
      }
    }
  }

  /** What a move of reservation id adds to the count of a note; t is after the move. */
  ghost function Told(t: Tables, id: int, m: Move, note: Note): nat
    requires Joined(t, id)
  {
    if note.reservation == id && Announces(m) == Some(note.kind) && note.user in Audience(t, id, m) then 1 else 0
  }

  lemma Announced(notes: seq<Note>, ids: seq<int>, t: Tables, id: int, m: Move, kind: Kind, note: Note)
    requires Joined(t, id) && Announces(m) == Some(kind)
    requires note.user in ids <==> note.user in Audience(t, id, m)
    ensures multiset(Notified(notes, ids, kind, id))[note] == multiset(notes)[note] + Told(t, id, m, note)
  {
    FanOut(ids, kind, id, note);
  }

  ghost predicate Notifies(t: Tables, n: Tables, id: int, m: Move, note: Note)
  {
    Joined(n, id) && multiset(n.notes)[note] == multiset(t.notes)[note] + Told(n, id, m, note)
  }

  ghost predicate NotifiesIf(t: Tables, n: Tables, m: Option<Move>, note: Note)
  {
    match m
    case Some(m) => Notifies(t, n, note.reservation, m, note)
    case None => multiset(n.notes)[note] == multiset(t.notes)[note]
  }

  /** What each handler's notes are, as those of its move. */
  ghost predicate HandlerNotifies(t: Tables, u: Actor, r: Request, note: Note)
    requires OnBooking(r)
  {
    BookingOutcome(t, u, r).Done? ==> NotifiesIf(t, BookingOutcome(t, u, r).t, MoveBy(t, r, note.reservation), note)
  }

  lemma CreateNotifies(t: Tables, u: Actor, r: Request, note: Note)
    requires r.CreateReservation?
    ensures HandlerNotifies(t, u, r, note)
  {
    var o := Create(t, u, r.car, r.start, r.end);
    if o.Done? {
      AdminsAre(t.users, t.nextUser);
      Announced(t.notes, AdminIds(t) + [t.cars[r.car].owner], o.t, t.nextReservation, MoveCreate, NotifyRequested,
                note);
    }
  }

  lemma CancelNotifies(t: Tables, u: Actor, r: Request, note: Note)
    requires r.CancelReservation?
    ensures HandlerNotifies(t, u, r, note)
  {
    var o := Cancel(t, u, r.id);
    if o.Done? {
      Announced(t.notes, [OwnerOf(t, r.id)], o.t, r.id, MoveCancel, NotifyCancelled, note);
    }
  }

  lemma AcceptNotifies(t: Tables, u: Actor, r: Request, note: Note)
    requires r.AcceptReservation?
    ensures HandlerNotifies(t, u, r, note)
  {
    var o := Accept(t, u, r.id);
    if o.Done? {
      Announced(t.notes, [t.reservations[r.id].buyer], o.t, r.id, MoveAccept, NotifyAccepted, note);
    }
  }

  lemma RejectNotifies(t: Tables, u: Actor, r: Request, note: Note)
    requires r.RejectReservation?
    ensures HandlerNotifies(t, u, r, note)
  {
    var o := Reject(t, u, r.id);
    if o.Done? {
      AdminsAre(t.users, t.nextUser);
      Announced(t.notes, AdminIds(t) + [t.reservations[r.id].buyer], o.t, r.id, MoveReject, NotifyRejected, note);
    }
  }

  lemma ConfirmNotifies(t: Tables, u: Actor, r: Request, note: Note)
    requires r.ConfirmReservation?
    ensures HandlerNotifies(t, u, r, note)
  {
    var o := Confirm(t, u, r.id);
    if o.Done? {
      AdminsAre(t.users, t.nextUser);
      Announced(t.notes, AdminIds(t) + [t.reservations[r.id].buyer, OwnerOf(t, r.id)], o.t, r.id, MoveConfirm,
                NotifyConfirmed, note);
    }
  }

  lemma CorrectNotifies(t: Tables, u: Actor, r: Request, note: Note)
    requires r.RequestCorrection? && (r.id in t.reservations ==> Joined(t, r.id))
    ensures HandlerNotifies(t, u, r, note)
  {
    var o := Correct(t, u, r.id);
    if o.Done? {
      Announced(t.notes, [t.reservations[r.id].buyer], o.t, r.id, MoveCorrect, NotifyCorrectionRequested, note);
    }
  }

  lemma PayNotifies(t: Tables, u: Actor, r: Request, note: Note)
    requires r.RecordPayment? && (r.id in t.reservations ==> Joined(t, r.id))
    ensures HandlerNotifies(t, u, r, note)
  {
    var o := Pay(t, u, r.id, r.paidBy, r.proof);
    if o.Done? && PaymentRowOf(t, r.id).Some? {
      AdminsAre(t.users, t.nextUser);
      Announced(t.notes, AdminIds(t), o.t, r.id, MoveResubmit, NotifyCorrectionSubmitted, note);
    }
  }

  /** Each transition leaves exactly one note of its kind for each member of its audience,
      and nothing else leaves any. */
  lemma StepNotifies(t: Tables, e: Event, note: Note)
    requires RowsOk(t)
    ensures NotifiesIf(t, Commit(t, e), MoveOf(t, e, note.reservation), note)
  {
    if Perform(t, e).Done? && OnBooking(e.request) {
      BookingNotifies(t, e.actor, e.request, note);
    } else {
      StepShape(t, e);
    }
  }

  lemma BookingNotifies(t: Tables, u: Actor, r: Request, note: Note)
    requires RowsOk(t) && OnBooking(r)
    ensures HandlerNotifies(t, u, r, note)
  {
    match r
    case CreateReservation(_, _, _, _) => CreateNotifies(t, u, r, note);
    case CancelReservation(_) => CancelNotifies(t, u, r, note);
    case RecordPayment(_, _, _) => PayNotifies(t, u, r, note);
    case AcceptReservation(_) => AcceptNotifies(t, u, r, note);
    case RejectReservation(_) => RejectNotifies(t, u, r, note);
    case ConfirmReservation(_) => ConfirmNotifies(t, u, r, note);
    case RequestCorrection(_) => CorrectNotifies(t, u, r, note);
  }

  /** How many notes of a one-off kind there are to be had about a reservation. */
  function Due(l: Life, kind: Kind): nat
  {
    if l.Unbooked? then 0
    else
      match kind
      case NotifyRequested => 1
      case NotifyAccepted => if l.status == Accepted || l.status == Confirmed then 1 else 0
      case NotifyRejected => if l.status == Rejected then 1 else 0
      case NotifyConfirmed => if l.status == Confirmed then 1 else 0
      case NotifyCancelled => if l.status == Cancelled then 1 else 0
      case _ => 0
  }

  /** The parties a note of this kind always goes to, whoever the administrators are. */
  predicate Party(t: Tables, note: Note)
    requires Joined(t, note.reservation)
  {
    var buyer, owner := t.reservations[note.reservation].buyer, OwnerOf(t, note.reservation);
    match note.kind
    case NotifyRequested => note.user == owner
    case NotifyAccepted => note.user == buyer
    case NotifyRejected => note.user == buyer
    case NotifyConfirmed => note.user == buyer || note.user == owner
    case NotifyCancelled => note.user == owner
    case NotifyCorrectionRequested => note.user == buyer
    case NotifyCorrectionSubmitted => false
  }

  function Requests(word: seq<Action>): nat
  {
    if word == [] then 0 else Requests(word[..|word| - 1]) + if word[|word| - 1] == AuditRequestCorrection then 1 else 0
  }

  /** The requests for correction logged on a reservation. */
  function Corrections(audit: seq<Entry>, id: int): nat
  {
    Requests(Word(audit, id))
  }

  predicate AwaitsProof(l: Life)
  {
    l.Booked? && l.status == Accepted && l.pay == Some(PayRejected)
  }

  /** How often a note has been sent: at most once for the one-off kinds, and exactly once
      to the parties; a request for correction once per logged request, to the buyer alone;
      a resubmission at most once per request, and not yet while one is awaited. */
  ghost predicate SentRight(t: Tables, note: Note)
  {
    var sent, id, life := multiset(t.notes)[note], note.reservation, LifeOf(t, note.reservation);
    var party := Joined(t, id) && Party(t, note);
    match note.kind
    case NotifyCorrectionRequested => sent == if party then Corrections(t.audit, id) else 0
    case NotifyCorrectionSubmitted => sent + (if AwaitsProof(life) then 1 else 0) <= Corrections(t.audit, id)
    case _ => sent <= Due(life, note.kind) && (party ==> sent == Due(life, note.kind))
  }

  lemma DueSteps(l: Life, m: Move, kind: Kind)
    requires Next(l, m).Some? && kind != NotifyCorrectionRequested && kind != NotifyCorrectionSubmitted
    ensures Due(Next(l, m).value, kind) == Due(l, kind) + if Announces(m) == Some(kind) then 1 else 0
  {
  }

  lemma AwaitSteps(l: Life, m: Move)
    requires Next(l, m).Some? && (l.Booked? ==> Coupled(l.status, l.pay))
    ensures (if AwaitsProof(Next(l, m).value) then 1 else 0)
         == (if AwaitsProof(l) then 1 else 0) + (if m.MoveCorrect? then 1 else 0) - (if m.MoveResubmit? then 1 else 0)
  {
  }

  lemma PartiesHear(t: Tables, m: Move, note: Note)
    requires Joined(t, note.reservation) && Announces(m) == Some(note.kind)
    ensures Party(t, note) ==> note.user in Audience(t, note.reservation, m)
    ensures m.MoveCorrect? ==> (note.user in Audience(t, note.reservation, m) <==> Party(t, note))
  {
  }

  /** The rows a move leaves as they were, as far as notes read them. */
  ghost predicate SameParties(t: Tables, n: Tables, id: int)
  {
    id in t.reservations ==>
      Joined(t, id) && Joined(n, id) && OwnerOf(n, id) == OwnerOf(t, id)
        && n.reservations[id].buyer == t.reservations[id].buyer
  }

  /** What earlier results say of a reservation's life and its word. */
  ghost predicate Consistent(t: Tables, id: int)
  {
    var l := LifeOf(t, id);
    (l.Booked? ==> Coupled(l.status, l.pay)) && (l.Unbooked? ==> Corrections(t.audit, id) == 0)
  }

  lemma NoMoveSendsRight(t: Tables, n: Tables, note: Note)
    requires SentRight(t, note) && SameParties(t, n, note.reservation)
    requires LifeOf(n, note.reservation) == LifeOf(t, note.reservation)
    requires multiset(n.notes)[note] == multiset(t.notes)[note]
    requires Corrections(n.audit, note.reservation) == Corrections(t.audit, note.reservation)
    ensures SentRight(n, note)
  {
  }

  lemma MoveSendsRight(t: Tables, n: Tables, m: Move, note: Note)
    requires SentRight(t, note) && SameParties(t, n, note.reservation) && Consistent(t, note.reservation)
    requires Next(LifeOf(t, note.reservation), m) == Some(LifeOf(n, note.reservation))
    requires Notifies(t, n, note.reservation, m, note)
    requires Corrections(n.audit, note.reservation)
          == Corrections(t.audit, note.reservation) + if m.MoveCorrect? then 1 else 0
    ensures SentRight(n, note)
  {
    var l := LifeOf(t, note.reservation);
    if Announces(m) == Some(note.kind) {
      PartiesHear(n, m, note);
    }
    if note.kind == NotifyCorrectionRequested {
      MoveSendsRequests(t, n, m, note);
    } else if note.kind == NotifyCorrectionSubmitted {
      AwaitSteps(l, m);
    } else {
      DueSteps(l, m, note.kind);
      assert l.Unbooked? ==> Due(l, note.kind) == 0;
    }
  }

  lemma MoveSendsRequests(t: Tables, n: Tables, m: Move, note: Note)
    requires SentRight(t, note) && SameParties(t, n, note.reservation) && note.kind == NotifyCorrectionRequested
    requires m.MoveCorrect? ==> note.reservation in t.reservations
    requires Notifies(t, n, note.reservation, m, note)
    requires note.reservation !in t.reservations ==> Corrections(t.audit, note.reservation) == 0
    requires Corrections(n.audit, note.reservation)
          == Corrections(t.audit, note.reservation) + if m.MoveCorrect? then 1 else 0
    ensures SentRight(n, note)
  {
    if m.MoveCorrect? {
      PartiesHear(n, m, note);
    }
  }

  lemma RequestsAppend(word: seq<Action>, action: Action)
    ensures Requests(word + [action]) == Requests(word) + if action == AuditRequestCorrection then 1 else 0
  {
    assert (word + [action])[..|word|] == word;
  }

  lemma CorrectionsStep(t: Tables, n: Tables, id: int, m: Option<Move>)
    requires Word(n.audit, id) == Word(t.audit, id) + LoggedAs(m)
    ensures Corrections(n.audit, id) == Corrections(t.audit, id) + if m == Some(MoveCorrect) then 1 else 0
  {
    var word, logged := Word(t.audit, id), LoggedAs(m);
    if logged == [] {
      assert word + [] == word;
    } else {
      assert logged == [logged[0]];
      RequestsAppend(word, logged[0]);
    }
  }

  lemma StepSendsRight(t: Tables, n: Tables, m: Option<Move>, note: Note)
    requires SentRight(t, note) && SameParties(t, n, note.reservation) && Consistent(t, note.reservation)
    requires IsMove(t, n, note.reservation, m) && NotifiesIf(t, n, m, note)
    requires Corrections(n.audit, note.reservation)
          == Corrections(t.audit, note.reservation) + if m == Some(MoveCorrect) then 1 else 0
    ensures SentRight(n, note)
  {
    match m
    case Some(m) => MoveSendsRight(t, n, m, note);
    case None => NoMoveSendsRight(t, n, note);
  }

  lemma RunIsConsistent(events: seq<Event>, id: int)
    ensures Consistent(After(events), id)
  {
    LogTellsStatus(events, id);
    RunsProject(events, id);
    LivesAreCoupled(Moves(events, id));
  }

  lemma PartiesAreSame(t: Tables, e: Event, id: int)
    requires RowsOk(t)
    ensures SameParties(t, Commit(t, e), id)
  {
    if id in t.reservations {
      PartiesStay(t, e, id);
    }
  }

  /** In every reachable state every possible note has been sent as often as it should. */
  lemma {:induction false} NotesAreSentRight(events: seq<Event>, note: Note)
    ensures SentRight(After(events), note)
  {
    if events != [] {
      var front := events[..|events| - 1];
      var t, e, id := After(front), events[|events| - 1], note.reservation;
      NotesAreSentRight(front, note);
      RunIsConsistent(front, id);
      AfterRowsOk(front);
      PartiesAreSame(t, e, id);
      StepIsMove(t, e, id);
      StepLogs(t, e, id);
      CorrectionsStep(t, Commit(t, e), id, MoveOf(t, e, id));
      StepNotifies(t, e, note);
      StepSendsRight(t, Commit(t, e), MoveOf(t, e, id), note);
    }
  }
}
