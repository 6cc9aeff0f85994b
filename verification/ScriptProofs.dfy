// Every script, run to its end on tables nobody else touches, is the atomic step.
module ScriptProofs {
  import opened Common
  import opened Calendar
  import opened Store
  import opened Booking
  import opened Scripts

  ghost predicate EndsWithin(p: Script, t: Tables, o: Outcome, n: nat)
  {
    forall fuel: nat | fuel >= n :: Run(p, t, fuel) == Ended(o)
  }

  /** Given enough statements, p on t ends with o. */
  ghost predicate Ends(p: Script, t: Tables, o: Outcome)
  {
    exists n: nat :: EndsWithin(p, t, o, n)
  }

  lemma EndsNow(p: Script, t: Tables)
    requires p.Finish? || p.Fail?
    ensures Ends(p, t, if p.Finish? then Done(t) else Refused(p.e))
  {
    assert EndsWithin(p, t, if p.Finish? then Done(t) else Refused(p.e), 0);
  }

  lemma EndsAfter(p: Script, t: Tables, o: Outcome)
    requires p.Do? && Ends(p.next(Exec(p.st, t).0), Exec(p.st, t).1, o)
    ensures Ends(p, t, o)
  {
    var n: nat :| EndsWithin(p.next(Exec(p.st, t).0), Exec(p.st, t).1, o, n);
    forall fuel: nat | fuel >= n + 1 ensures Run(p, t, fuel) == Ended(o) {
      assert Run(p, t, fuel) == Run(p.next(Exec(p.st, t).0), Exec(p.st, t).1, fuel - 1);
    }
    assert EndsWithin(p, t, o, n + 1);
  }

  lemma EndsThen(st: Stmt, p: Script, t: Tables, o: Outcome)
    requires Ends(p, Exec(st, t).1, o)
    ensures Ends(Then(st, p), t, o)
  {
    var n: nat :| EndsWithin(p, Exec(st, t).1, o, n);
    forall fuel: nat | fuel >= n + 1 ensures Run(Then(st, p), t, fuel) == Ended(o) {
      assert Run(Then(st, p), t, fuel) == Run(p, Exec(st, t).1, fuel - 1);
    }
    assert EndsWithin(Then(st, p), t, o, n + 1);
  }

  // ---------- Notifications ----------

  lemma {:induction false} NotifyEnds(ids: seq<int>, kind: Kind, id: int, t: Tables)
    ensures Ends(Notify(ids, kind, id), t, Done(t.(notes := t.notes + NotesFor(ids, kind, id))))
    decreases |ids|
  {
    if ids == [] {
      assert t.notes + NotesFor(ids, kind, id) == t.notes;
      EndsNow(Finish, t);
    } else {
      var t' := t.(notes := t.notes + [Note(ids[0], kind, id)]);
      NotifyEnds(ids[1..], kind, id, t');
      assert t'.notes + NotesFor(ids[1..], kind, id) == t.notes + NotesFor(ids, kind, id);
      EndsThen(InsertNote(Note(ids[0], kind, id)), Notify(ids[1..], kind, id), t,
               Done(t.(notes := t.notes + NotesFor(ids, kind, id))));
    }
  }

  lemma NotifyOneEnds(user: int, kind: Kind, id: int, t: Tables)
    ensures Ends(Notify([user], kind, id), t, Done(t.(notes := Notified(t.notes, [user], kind, id))))
  {
    assert Dedup([user]) == Dedup([]) + [user] == [user];
    NotifyEnds([user], kind, id, t);
  }

  lemma NotifyAdminsEnds(others: seq<int>, kind: Kind, id: int, t: Tables)
    ensures Ends(NotifyAdminsAnd(others, kind, id), t,
                 Done(t.(notes := Notified(t.notes, AdminIds(t) + others, kind, id))))
  {
    NotifyEnds(Dedup(AdminIds(t) + others), kind, id, t);
    EndsAfter(NotifyAdminsAnd(others, kind, id), t,
              Done(t.(notes := Notified(t.notes, AdminIds(t) + others, kind, id))));
  }

  // ---------- Reservations ----------

  lemma CreateEnds(u: Actor, car: int, start: string, end: string, t: Tables)
    ensures Ends(CreateScript(u, car, start, end), t, Create(t, u, car, start, end))
  {
    var p := CreateScript(u, car, start, end);
    var o := Create(t, u, car, start, end);
    var p1 := p.next(Exec(p.st, t).0);
    if car in t.cars && t.cars[car].active {
      var p2 := p1.next(Exec(p1.st, t).0);
      if |Overlapping(t.reservations, car, start, end)| == 0 {
        var t' := Exec(p2.st, t).1;
        assert AdminIds(t') == AdminIds(t);
        NotifyAdminsEnds([t.cars[car].owner], NotifyRequested, t.nextReservation, t');
        EndsAfter(p2, t, o);
      } else {
        EndsNow(p2, t);
      }
      EndsAfter(p1, t, o);
    } else {
      EndsNow(p1, t);
    }
    EndsAfter(p, t, o);
  }

  /** The tail three handlers share: the status, the audit entry, then one note. */
  lemma MoveAndNotifyOneEnds(st: Stmt, entry: Entry, user: int, kind: Kind, id: int, t: Tables)
    requires Exec(st, t).1 == t.(reservations := Exec(st, t).1.reservations)
    ensures Ends(Then(st, Then(InsertAudit(entry), Notify([user], kind, id))), t,
                 Done(t.(reservations := Exec(st, t).1.reservations, audit := t.audit + [entry],
                         notes := Notified(t.notes, [user], kind, id))))
  {
    var t1 := Exec(st, t).1;
    var t2 := Exec(InsertAudit(entry), t1).1;
    var o := Done(t2.(notes := Notified(t2.notes, [user], kind, id)));
    NotifyOneEnds(user, kind, id, t2);
    EndsThen(InsertAudit(entry), Notify([user], kind, id), t1, o);
    EndsThen(st, Then(InsertAudit(entry), Notify([user], kind, id)), t, o);
  }

  lemma AuditThenNotifyAdminsEnds(entry: Entry, others: seq<int>, kind: Kind, id: int, t: Tables)
    ensures Ends(Then(InsertAudit(entry), NotifyAdminsAnd(others, kind, id)), t,
                 Done(t.(audit := t.audit + [entry], notes := Notified(t.notes, AdminIds(t) + others, kind, id))))
  {
    var t1 := t.(audit := t.audit + [entry]);
    assert AdminIds(t1) == AdminIds(t);
    NotifyAdminsEnds(others, kind, id, t1);
    EndsThen(InsertAudit(entry), NotifyAdminsAnd(others, kind, id), t,
             Done(t1.(notes := Notified(t.notes, AdminIds(t) + others, kind, id))));
  }

  lemma MoveThenNotifyAdminsEnds(status: Status, entry: Entry, others: seq<int>, kind: Kind, id: int, t: Tables)
    requires id in t.reservations && entry.target == OnReservation(id)
    ensures Ends(Then(UpdateStatus(id, status), Then(InsertAudit(entry), NotifyAdminsAnd(others, kind, id))), t,
                 Done(Transition(t, id, status, entry.actor, entry.action, AdminIds(t) + others, kind)))
  {
    var t1 := t.(reservations := SetStatus(t.reservations, id, status));
    assert AdminIds(t1) == AdminIds(t);
    AuditThenNotifyAdminsEnds(entry, others, kind, id, t1);
    EndsThen(UpdateStatus(id, status), Then(InsertAudit(entry), NotifyAdminsAnd(others, kind, id)), t,
             Done(Transition(t, id, status, entry.actor, entry.action, AdminIds(t) + others, kind)));
  }

  /** The tail of the two handlers that settle a payment and tell the administrators. */
  lemma SettleAndNotifyAdminsEnds(to: PayStatus, status: Status, entry: Entry, others: seq<int>, kind: Kind, id: int,
                                  t: Tables)
    requires id in t.reservations && entry.target == OnReservation(id)
    ensures Ends(Then(MovePayments(id, PayPending, to),
                 Then(UpdateStatus(id, status),
                 Then(InsertAudit(entry), NotifyAdminsAnd(others, kind, id)))), t,
                 Done(Transition(t.(payments := PaymentsMoved(t.payments, id, PayPending, to)), id, status,
                                 entry.actor, entry.action, AdminIds(t) + others, kind)))
  {
    var t1 := t.(payments := PaymentsMoved(t.payments, id, PayPending, to));
    assert AdminIds(t1) == AdminIds(t);
    MoveThenNotifyAdminsEnds(status, entry, others, kind, id, t1);
    EndsThen(MovePayments(id, PayPending, to),
             Then(UpdateStatus(id, status), Then(InsertAudit(entry), NotifyAdminsAnd(others, kind, id))), t,
             Done(Transition(t1, id, status, entry.actor, entry.action, AdminIds(t) + others, kind)));
  }

  lemma CancelEnds(u: Actor, id: int, t: Tables)
    ensures Ends(CancelScript(u, id), t, Cancel(t, u, id))
  {
    var p := CancelScript(u, id);
    var o := Cancel(t, u, id);
    var p1 := p.next(Exec(p.st, t).0);
    if p1.Do? {
      var p2 := p1.next(Exec(p1.st, t).0);
      if |PaymentsOf(t.payments, id)| == 0 {
        MoveAndNotifyOneEnds(UpdateOwnStatus(id, u.id, Cancelled), Entry(u.id, AuditCancel, OnReservation(id)),
                             OwnerOf(t, id), NotifyCancelled, id, t);
      } else {
        EndsNow(p2, t);
      }
      EndsAfter(p1, t, o);
    } else {
      EndsNow(p1, t);
    }
    EndsAfter(p, t, o);
  }

  lemma AcceptEnds(u: Actor, id: int, t: Tables)
    ensures Ends(AcceptScript(u, id), t, Accept(t, u, id))
  {
    var p := AcceptScript(u, id);
    var p1 := p.next(Exec(p.st, t).0);
    if p1.Fail? {
      EndsNow(p1, t);
    } else {
      MoveAndNotifyOneEnds(UpdateStatus(id, Accepted), Entry(u.id, AuditAccept, OnReservation(id)),
                           t.reservations[id].buyer, NotifyAccepted, id, t);
    }
    EndsAfter(p, t, Accept(t, u, id));
  }

  lemma RejectEnds(u: Actor, id: int, t: Tables)
    ensures Ends(RejectScript(u, id), t, Reject(t, u, id))
  {
    var p := RejectScript(u, id);
    var p1 := p.next(Exec(p.st, t).0);
    if p1.Fail? {
      EndsNow(p1, t);
    } else {
      SettleAndNotifyAdminsEnds(PayRejected, Rejected, Entry(u.id, AuditReject, OnReservation(id)),
                                [t.reservations[id].buyer], NotifyRejected, id, t);
    }
    EndsAfter(p, t, Reject(t, u, id));
  }

  lemma ConfirmEnds(u: Actor, id: int, t: Tables)
    ensures Ends(ConfirmScript(u, id), t, Confirm(t, u, id))
  {
    var p := ConfirmScript(u, id);
    var o := Confirm(t, u, id);
    var p1 := p.next(Exec(p.st, t).0);
    if p1.Do? {
      var p2 := p1.next(Exec(p1.st, t).0);
      if p2.Fail? {
        EndsNow(p2, t);
      } else {
        SettleAndNotifyAdminsEnds(PayApproved, Confirmed, Entry(u.id, AuditConfirm, OnReservation(id)),
                                  [t.reservations[id].buyer, OwnerOf(t, id)], NotifyConfirmed, id, t);
      }
      EndsAfter(p1, t, o);
    } else {
      EndsNow(p1, t);
    }
    EndsAfter(p, t, o);
  }

  lemma CorrectEnds(u: Actor, id: int, t: Tables)
    ensures Ends(CorrectScript(u, id), t, Correct(t, u, id))
  {
    var p := CorrectScript(u, id);
    var o := Correct(t, u, id);
    var p1 := p.next(Exec(p.st, t).0);
    if p1.Do? {
      var (n, t1) := Exec(p1.st, t);
      var p2 := p1.next(n);
      if p2.Fail? {
        EndsNow(p2, t1);
      } else {
        NotifyOneEnds(t.reservations[id].buyer, NotifyCorrectionRequested, id, Exec(p2.st, t1).1);
        EndsThen(p2.st, p2.rest, t1, o);
      }
      EndsAfter(p1, t, o);
    } else {
      EndsNow(p1, t);
    }
    EndsAfter(p, t, o);
  }

  lemma ResubmitEnds(p: int, paidBy: PayMethod, proof: string, id: int, t: Tables)
    requires p in t.payments
    ensures Ends(Then(ResubmitPayment(p, paidBy, proof), NotifyAdminsAnd([], NotifyCorrectionSubmitted, id)), t,
                 Done(t.(payments := t.payments[p :=
                           t.payments[p].(paidBy := paidBy, proof := proof, status := PayPending)],
                         notes := Notified(t.notes, AdminIds(t), NotifyCorrectionSubmitted, id))))
  {
    var t1 := Exec(ResubmitPayment(p, paidBy, proof), t).1;
    assert AdminIds(t1) == AdminIds(t) && AdminIds(t) + [] == AdminIds(t);
    NotifyAdminsEnds([], NotifyCorrectionSubmitted, id, t1);
    EndsThen(ResubmitPayment(p, paidBy, proof), NotifyAdminsAnd([], NotifyCorrectionSubmitted, id), t,
             Done(t1.(notes := Notified(t.notes, AdminIds(t), NotifyCorrectionSubmitted, id))));
  }

  lemma PayEnds(u: Actor, id: int, paidBy: PayMethod, proof: string, t: Tables)
    ensures Ends(PayScript(u, id, paidBy, proof), t, Pay(t, u, id, paidBy, proof))
  {
    var p := PayScript(u, id, paidBy, proof);
    var o := Pay(t, u, id, paidBy, proof);
    var p1 := p.next(Exec(p.st, t).0);
    if p1.Do? {
      var p2 := p1.next(Exec(p1.st, t).0);
      if p2.Fail? {
        EndsNow(p2, t);
      } else if p2.Then? {
        ResubmitEnds(PaymentRowOf(t, id).value, paidBy, proof, id, t);
      } else {
        EndsNow(p2.next(Exec(p2.st, t).0), Exec(p2.st, t).1);
        EndsAfter(p2, t, o);
      }
      EndsAfter(p1, t, o);
    } else {
      EndsNow(p1, t);
    }
    EndsAfter(p, t, o);
  }

  // ---------- Cars and accounts ----------

  lemma PatchEnds(id: int, p: Patch, owner: Option<int>, today: Option<string>, last: Script, t: Tables, o: Outcome)
    requires ApplyPatch(t, id, p, owner, today).Done? ==> Ends(last, ApplyPatch(t, id, p, owner, today).t, o)
    requires ApplyPatch(t, id, p, owner, today).Refused? ==> o == ApplyPatch(t, id, p, owner, today)
    ensures Ends(PatchScript(id, p, owner, today, last), t, o)
  {
    var s := PatchScript(id, p, owner, today, last);
    var s1 := s.next(Exec(s.st, t).0);
    if !Matches(t, id, owner) {
      EndsNow(s1, t);
    } else {
      var n := Patched(t.cars[id], p);
      assert t.cars[id].(name := n.name, photo := n.photo, price := n.price, active := n.active) == n;
      if today.Some? && p.active == Some(false) {
        var s2 := s1.next(Exec(s1.st, t).0);
        if |FutureOf(t.reservations, id, today.value)| > 0 {
          EndsNow(s2, t);
        } else {
          EndsAfter(s2, t, o);
        }
        EndsAfter(s1, t, o);
      } else {
        EndsAfter(s1, t, o);
      }
    }
    EndsAfter(s, t, o);
  }

  lemma DropEnds(id: int, owner: Option<int>, last: Script, t: Tables, o: Outcome)
    requires Drop(t, id, owner).Done? ==> Ends(last, Drop(t, id, owner).t, o)
    requires Drop(t, id, owner).Refused? ==> o == Drop(t, id, owner)
    ensures Ends(DropScript(id, owner, last), t, o)
  {
    var s := DropScript(id, owner, last);
    var s1 := s.next(Exec(s.st, t).0);
    if !Matches(t, id, owner) {
      EndsNow(s1, t);
    } else {
      var s2 := s1.next(Exec(s1.st, t).0);
      if |HistoryOf(t.reservations, id)| > 0 {
        EndsNow(s2, t);
      } else {
        EndsThen(DeleteCar(id, owner), last, t, o);
      }
      EndsAfter(s1, t, o);
    }
    EndsAfter(s, t, o);
  }

  lemma ThenFinishEnds(st: Stmt, t: Tables)
    ensures Ends(Then(st, Finish), t, Done(Exec(st, t).1))
  {
    EndsNow(Finish, Exec(st, t).1);
    EndsThen(st, Finish, t, Done(Exec(st, t).1));
  }

  lemma {:induction false} GrantAllEnds(u: int, roles: seq<Role>, t: Tables)
    requires u in t.users
    ensures Ends(GrantAll(u, roles), t, Done(t.(users := SetRoles(t.users, u, t.users[u].roles + Holding(roles)))))
    decreases |roles|
  {
    var held := t.users[u].roles;
    if roles == [] {
      assert held + Holding(roles) == held;
      SetRolesTwice(t.users, u, {}, {});
      EndsNow(Finish, t);
    } else {
      InsertRoleAdds(u, roles[0], t);
      var t1 := Exec(InsertRole(u, roles[0]), t).1;
      GrantAllEnds(u, roles[1..], t1);
      assert held + {roles[0]} + Holding(roles[1..]) == held + Holding(roles) by {
        assert roles == [roles[0]] + roles[1..];
      }
      SetRolesTwice(t.users, u, held + {roles[0]}, held + Holding(roles));
      EndsThen(InsertRole(u, roles[0]), GrantAll(u, roles[1..]), t,
               Done(t.(users := SetRoles(t.users, u, held + Holding(roles)))));
    }
  }

  function FirstRoles(phone: string, allowListed: bool): seq<Role>
  {
    [Buyer] + (if phone != "" then [Seller] else []) + (if allowListed then [Admin] else [])
  }

  lemma FirstRolesHeld(phone: string, allowListed: bool)
    ensures {} + Holding(FirstRoles(phone, allowListed))
         == {Buyer} + (if phone != "" then {Seller} else {}) + (if allowListed then {Admin} else {})
  {
  }

  lemma NewUserEnds(email: string, phone: PhoneInput, p: string, allowListed: bool, t: Tables)
    requires Normalized(phone) == Some(p) && UserByEmail(t.users, email) == {}
    ensures Ends(GrantAll(t.nextUser, FirstRoles(p, allowListed)), Exec(InsertUser(email, p), t).1,
                 Enrol(t, email, phone, allowListed))
  {
    var u, t1 := t.nextUser, Exec(InsertUser(email, p), t).1;
    GrantAllEnds(u, FirstRoles(p, allowListed), t1);
    FirstRolesHeld(p, allowListed);
    assert SetRoles(t1.users, u, {} + Holding(FirstRoles(p, allowListed)))
        == t.users[u := User(email, p, {} + Holding(FirstRoles(p, allowListed)), None)];
  }

  lemma RegisterEnds(email: string, phone: PhoneInput, p: string, allowListed: bool, t: Tables)
    requires Normalized(phone) == Some(p)
    ensures Ends(RegisterScript(email, p, allowListed), t, Enrol(t, email, phone, allowListed))
  {
    if UserByEmail(t.users, email) != {} {
      EndsNow(Finish, t);
    } else {
      NewUserEnds(email, phone, p, allowListed, t);
    }
    EndsAfter(RegisterScript(email, p, allowListed), t, Enrol(t, email, phone, allowListed));
  }

  lemma PromoteEnds(u: Actor, phone: PhoneInput, p: string, t: Tables)
    requires u.id in t.users && Normalized(phone) == Some(p) && p != ""
    ensures Ends(PromoteScript(u, p), t, Promote(t, u, phone))
  {
    var t1 := Exec(SetPhone(u.id, p), t).1;
    if Seller in u.roles {
      EndsNow(Finish, t1);
    } else {
      ThenFinishEnds(InsertRole(u.id, Seller), t1);
      var row := t.users[u.id].(phone := p);
      assert Seller in row.roles ==> row.roles + {Seller} == row.roles;
      assert Exec(InsertRole(u.id, Seller), t1).1.users == t.users[u.id := row.(roles := row.roles + {Seller})];
    }
    EndsThen(SetPhone(u.id, p), PromoteScript(u, p).rest, t, Promote(t, u, phone));
  }

  lemma SuspendEnds(u: Actor, id: int, suspended: bool, now: int, t: Tables)
    requires u.id != id
    ensures Ends(SuspendScript(u, id, suspended, now), t, Suspend(t, u, id, suspended, now))
  {
    var s := SuspendScript(u, id, suspended, now);
    var o := Suspend(t, u, id, suspended, now);
    var s1 := s.next(Exec(s.st, t).0);
    if s1.Then? {
      ThenFinishEnds(s1.rest.st, Exec(s1.st, t).1);
      EndsThen(s1.st, s1.rest, t, o);
    } else {
      EndsNow(s1, t);
    }
    EndsAfter(s, t, o);
  }

  lemma SetSellerEnds(u: Actor, id: int, seller: bool, today: string, t: Tables)
    ensures Ends(SetSellerScript(u, id, seller, today), t, GrantOrRevoke(t, u, id, seller, today))
  {
    var s := SetSellerScript(u, id, seller, today);
    var o := GrantOrRevoke(t, u, id, seller, today);
    var s1 := s.next(Exec(s.st, t).0);
    if s1.Fail? {
      EndsNow(s1, t);
    } else if seller {
      RoleChangeEnds(s1, u, id, seller, today, t);
    } else {
      var s2 := s1.next(Exec(s1.st, t).0);
      if s2.Fail? {
        EndsNow(s2, t);
      } else {
        RoleChangeEnds(s2, u, id, seller, today, t);
      }
      EndsAfter(s1, t, o);
    }
    EndsAfter(s, t, o);
  }

  lemma RoleChangeEnds(s: Script, u: Actor, id: int, seller: bool, today: string, t: Tables)
    requires s == RoleChange(u, id, seller) && id in t.users
    requires seller ==> t.users[id].phone != ""
    requires !seller ==> |FutureOfOwner(t, id, today)| == 0
    ensures Ends(s, t, GrantOrRevoke(t, u, id, seller, today))
  {
    var (n, t1) := Exec(s.st, t);
    var s1 := s.next(n);
    if s1.Then? {
      ThenFinishEnds(s1.st, t1);
    } else {
      EndsNow(s1, t1);
    }
    EndsAfter(s, t, GrantOrRevoke(t, u, id, seller, today));
  }

  // ---------- All of them ----------

  lemma BookingScriptEnds(e: Event, t: Tables)
    requires OnBooking(e.request) && e.actor.id in t.users && EarlyError(e).None?
    ensures Ends(ScriptOf(e), t, Perform(t, e))
  {
    var u := e.actor;
    match e.request
    case CreateReservation(car, start, end, _) => CreateEnds(u, car, start, end, t);
    case CancelReservation(id) => CancelEnds(u, id, t);
    case RecordPayment(id, paidBy, proof) => PayEnds(u, id, paidBy, proof, t);
    case AcceptReservation(id) => AcceptEnds(u, id, t);
    case RejectReservation(id) => RejectEnds(u, id, t);
    case ConfirmReservation(id) => ConfirmEnds(u, id, t);
    case RequestCorrection(id) => CorrectEnds(u, id, t);
  }

  lemma ListingScriptEnds(e: Event, t: Tables)
    requires OnOwnListing(e.request) && e.actor.id in t.users && EarlyError(e).None?
    ensures Ends(ScriptOf(e), t, Perform(t, e))
  {
    var u, o := e.actor, Perform(t, e);
    match e.request
    case CreateCar(name, photo, price) => ThenFinishEnds(InsertCar(Car(u.id, name, photo, price, true)), t);
    case PatchCar(id, patch, today) =>
      if o.Done? { EndsNow(Finish, o.t); }
      PatchEnds(id, patch, Some(u.id), Some(Format(today)), Finish, t, o);
    case DropCar(id) =>
      if o.Done? { EndsNow(Finish, o.t); }
      DropEnds(id, Some(u.id), Finish, t, o);
  }

  lemma AdminListingScriptEnds(e: Event, t: Tables)
    requires (e.request.AdminPatchCar? || e.request.AdminDropCar?) && e.actor.id in t.users && EarlyError(e).None?
    ensures Ends(ScriptOf(e), t, Perform(t, e))
  {
    match e.request
    case AdminPatchCar(id, patch) =>
      var patched := ApplyPatch(t, id, patch, None, None);
      var audit := InsertAudit(Entry(e.actor.id, AuditCarUpdate, OnCar(id)));
      if patched.Done? { ThenFinishEnds(audit, patched.t); }
      PatchEnds(id, patch, None, None, Then(audit, Finish), t, Perform(t, e));
    case AdminDropCar(id) =>
      var dropped := Drop(t, id, None);
      var audit := InsertAudit(Entry(e.actor.id, AuditCarDelete, OnCar(id)));
      if dropped.Done? { ThenFinishEnds(audit, dropped.t); }
      DropEnds(id, None, Then(audit, Finish), t, Perform(t, e));
  }

  lemma AccountScriptEnds(e: Event, t: Tables)
    requires !OnBooking(e.request) && !OnListing(e.request) && EarlyError(e).None?
    requires Anonymous(e.request) || e.actor.id in t.users
    ensures Ends(ScriptOf(e), t, Perform(t, e))
  {
    var u, p := e.actor, ScriptOf(e);
    if p.Fail? {
      EndsNow(p, t);
    } else {
      match e.request
      case Register(email, phone, allowListed) => RegisterEnds(email, phone, Normalized(phone).value, allowListed, t);
      case BecomeSeller(phone) => PromoteEnds(u, phone, Normalized(phone).value, t);
      case UpdateMe(phone) => ThenFinishEnds(SetPhone(u.id, Normalized(phone).value), t);
      case SuspendUser(id, suspended, now) => SuspendEnds(u, id, suspended, now, t);
      case SetSeller(id, seller, today) => SetSellerEnds(u, id, seller, Format(today), t);
      case SyncAdmins(admins) => ThenFinishEnds(SetAdmins(admins), t);
    }
  }

  /** For every request, on every state of the tables, the statements run to their end give
      what the whole request gives as one step, refusals included. */
  lemma ScriptIsPerform(e: Event, t: Tables)
    requires Anonymous(e.request) || e.actor.id in t.users
    ensures Ends(ScriptOf(e), t, Perform(t, e))
  {
    if EarlyError(e).Some? {
      EndsNow(ScriptOf(e), t);
    } else if OnBooking(e.request) {
      BookingScriptEnds(e, t);
    } else if OnOwnListing(e.request) {
      ListingScriptEnds(e, t);
    } else if OnListing(e.request) {
      AdminListingScriptEnds(e, t);
    } else {
      AccountScriptEnds(e, t);
    }
  }
}
