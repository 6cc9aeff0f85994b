// The two levels together: whatever many clients do is a serial run of whole requests, and
// every such run is something the clients can do. So what runs keep, the server keeps.
module Server {
  import opened Common
  import opened Store
  import opened Booking
  import opened Scripts
  import opened ScriptProofs
  import opened Transactions
  import Availability
  import Effects
  import Lifecycle
  import Trails
  import Joins
  import Refusals
  import Rows

  // ---------- Every honest log has a schedule ----------

  lemma OneStep(run: seq<Label>, l: Label)
    ensures Reached(run + [l]) == Step(Reached(run), l)
  {
    assert (run + [l])[..|run|] == run;
  }

  /** Client c works on its own tables towards an outcome. */
  ghost predicate HeadsFor(w: World, c: int, e: Event, o: Outcome, fuel: nat)
  {
    c in w.clients && w.clients[c].Working? && w.clients[c].e == e
      && Run(w.clients[c].p, w.clients[c].own, fuel) == Ended(o)
  }

  ghost predicate SameBut(a: World, b: World, c: int)
  {
    b.log == a.log && b.lock == a.lock && b.clients - {c} == a.clients - {c}
  }

  /** Enough statements bring a client to its end, and move nobody else. */
  lemma {:induction false} StatementsEnd(run: seq<Label>, c: int, e: Event, t: Tables, fuel: nat)
    returns (more: seq<Label>)
    requires HeadsFor(Reached(run), c, e, Done(t), fuel)
    ensures HeadsFor(Reached(more), c, e, Done(t), 0) && Reached(more).clients[c].p.Finish?
    ensures SameBut(Reached(run), Reached(more), c)
    decreases fuel
  {
    var w := Reached(run);
    if w.clients[c].p.Finish? {
      more := run;
    } else {
      OneStep(run, Next(c));
      assert Step(w, Next(c)) == With(w, c, Advance(w.clients[c]));
      more := StatementsEnd(run + [Next(c)], c, e, t, fuel - 1);
    }
  }

  lemma SucceedsLater(e: Event, t: Tables) returns (fuel: nat)
    requires (Anonymous(e.request) || e.actor.id in t.users) && Perform(t, e).Done?
    ensures Run(ScriptOf(e), t, fuel) == Ended(Perform(t, e))
  {
    ScriptIsPerform(e, t);
    fuel :| EndsWithin(ScriptOf(e), t, Perform(t, e), fuel);
  }

  /** A waiting client takes the free lock, runs its statements and commits. */
  lemma WaitingCommits(run: seq<Label>, c: int, e: Event, seen: Seen) returns (more: seq<Label>)
    requires c in Reached(run).clients && Reached(run).clients[c] == Waiting(e, seen) && Reached(run).lock.None?
    requires Perform(Reached(run).committed, e).Done?
    ensures Reached(more).log == Reached(run).log + [e] && Reached(more).lock.None?
    ensures Reached(more).clients == Reached(run).clients - {c}
  {
    var w := Reached(run);
    OneStep(run, Begin(c));
    var begun := Reached(run + [Begin(c)]);
    assert begun == With(w, c, Working(e, seen, ScriptOf(e), w.committed, w.committed, 0)).(lock := Some(c));
    var fuel := SucceedsLater(e, w.committed);
    more := StatementsEnd(run + [Begin(c)], c, e, Perform(w.committed, e).t, fuel);
    OneStep(more, Return(c));
    ReturnCommits(w, Reached(more), c);
    more := more + [Return(c)];
  }

  lemma ReturnCommits(w: World, n: World, c: int)
    requires c in n.clients && n.clients[c].Working? && n.clients[c].p.Finish? && n.lock == Some(c)
    requires n.clients - {c} == w.clients - {c}
    ensures Step(n, Return(c)).log == n.log + [n.clients[c].e] && Step(n, Return(c)).lock.None?
    ensures Step(n, Return(c)).clients == w.clients - {c}
  {
  }

  /** Request i as client i when the log has n entries, the arrivals of this moment are made
      below a and the role reads below b. */
  ghost function Place(log: seq<Event>, seen: seq<Seen>, n: nat, a: nat, b: nat, i: int): Option<Client>
    requires |seen| == |log|
  {
    if i < n || i >= |log| then None
    else if !(seen[i].row < n || (seen[i].row == n && i < a)) then None
    else if Anonymous(log[i].request) || seen[i].roles < n || (seen[i].roles == n && i < b)
    then Some(Waiting(log[i], seen[i]))
    else Some(Known(log[i].actor.id, log[i].request, false, seen[i].row))
  }

  ghost predicate InPlace(w: World, log: seq<Event>, seen: seq<Seen>, n: nat, a: nat, b: nat)
    requires |seen| == |log| && n <= |log|
  {
    w.log == log[..n] && w.lock.None?
    && forall c :: Place(log, seen, n, a, b, c) == if c in w.clients then Some(w.clients[c]) else None
  }

  /** A vouched log in which requests without authentication read nothing early. */
  ghost predicate Prompt(log: seq<Event>, seen: seq<Seen>)
  {
    Vouched(log, seen) && forall i | 0 <= i < |log| && Anonymous(log[i].request) :: seen[i] == Seen(i, i)
  }

  lemma CommittedIsLog(run: seq<Label>, log: seq<Event>, seen: seq<Seen>, n: nat, a: nat, b: nat)
    requires |seen| == |log| && n <= |log| && InPlace(Reached(run), log, seen, n, a, b)
    ensures Reached(run).committed == After(log[..n]) && |Reached(run).log| == n
  {
    SchedulesAreSerial(run);
  }

  lemma ArrivalChangesOne(log: seq<Event>, seen: seq<Seen>, n: nat, a: nat)
    requires |seen| == |log| && a < |log|
    ensures forall c | c != a :: Place(log, seen, n, a + 1, 0, c) == Place(log, seen, n, a, 0, c)
    ensures a < n || seen[a].row != n ==> Place(log, seen, n, a + 1, 0, a) == Place(log, seen, n, a, 0, a)
  {
  }

  lemma Arrived(w: World, log: seq<Event>, seen: seq<Seen>, n: nat, a: nat)
    requires Prompt(log, seen) && n <= a < |log| && seen[a].row == n && InPlace(w, log, seen, n, a, 0)
    requires w.committed == After(log[..n]) && |w.log| == n
    ensures a !in w.clients && Place(log, seen, n, a + 1, 0, a).Some?
    ensures Step(w, Arrive(a, log[a].actor.id, log[a].request)) == With(w, a, Place(log, seen, n, a + 1, 0, a).value)
  {
    assert LoggedOk(log, seen[a], a);
    assert Place(log, seen, n, a, 0, a).None?;
  }

  lemma ArriveOne(run: seq<Label>, log: seq<Event>, seen: seq<Seen>, n: nat, a: nat) returns (more: seq<Label>)
    requires Prompt(log, seen) && n <= |log| && a < |log| && InPlace(Reached(run), log, seen, n, a, 0)
    ensures InPlace(Reached(more), log, seen, n, a + 1, 0)
  {
    more := run;
    ArrivalChangesOne(log, seen, n, a);
    if n <= a && seen[a].row == n {
      var l := Arrive(a, log[a].actor.id, log[a].request);
      CommittedIsLog(run, log, seen, n, a, 0);
      Arrived(Reached(run), log, seen, n, a);
      OneStep(run, l);
      more := run + [l];
    }
  }

  lemma RoleReadChangesOne(log: seq<Event>, seen: seq<Seen>, n: nat, b: nat)
    requires |seen| == |log| && b < |log|
    ensures forall c | c != b :: Place(log, seen, n, |log|, b + 1, c) == Place(log, seen, n, |log|, b, c)
    ensures b < n || Anonymous(log[b].request) || seen[b].roles != n ==>
              Place(log, seen, n, |log|, b + 1, b) == Place(log, seen, n, |log|, b, b)
  {
  }

  lemma RolesRead(w: World, log: seq<Event>, seen: seq<Seen>, n: nat, b: nat)
    requires Prompt(log, seen) && n <= b < |log| && !Anonymous(log[b].request) && seen[b].roles == n
    requires InPlace(w, log, seen, n, |log|, b) && w.committed == After(log[..n]) && |w.log| == n
    ensures Place(log, seen, n, |log|, b + 1, b).Some?
    ensures Step(w, Authorize(b)) == With(w, b, Place(log, seen, n, |log|, b + 1, b).value)
  {
    assert LoggedOk(log, seen[b], b);
    assert Place(log, seen, n, |log|, b, b) == Some(Known(log[b].actor.id, log[b].request, false, seen[b].row));
  }

  lemma AuthorizeOne(run: seq<Label>, log: seq<Event>, seen: seq<Seen>, n: nat, b: nat) returns (more: seq<Label>)
    requires Prompt(log, seen) && n <= |log| && b < |log| && InPlace(Reached(run), log, seen, n, |log|, b)
    ensures InPlace(Reached(more), log, seen, n, |log|, b + 1)
  {
    more := run;
    RoleReadChangesOne(log, seen, n, b);
    if n <= b && !Anonymous(log[b].request) && seen[b].roles == n {
      CommittedIsLog(run, log, seen, n, |log|, b);
      RolesRead(Reached(run), log, seen, n, b);
      OneStep(run, Authorize(b));
      more := run + [Authorize(b)];
    }
  }

  lemma NextStage(log: seq<Event>, seen: seq<Seen>, n: nat)
    requires Prompt(log, seen) && n < |log|
    ensures Place(log, seen, n, |log|, |log|, n) == Some(Waiting(log[n], seen[n]))
    ensures Place(log, seen, n + 1, 0, 0, n).None?
    ensures forall c | c != n :: Place(log, seen, n + 1, 0, 0, c) == Place(log, seen, n, |log|, |log|, c)
  {
    assert LoggedOk(log, seen[n], n);
  }

  /** After the next request has committed, what is left is in place for the moment after it. */
  lemma CommitMovesOn(w: World, m: World, log: seq<Event>, seen: seq<Seen>, n: nat)
    requires Prompt(log, seen) && n < |log| && InPlace(w, log, seen, n, |log|, |log|)
    requires m.log == w.log + [log[n]] && m.lock.None? && m.clients == w.clients - {n}
    ensures InPlace(m, log, seen, n + 1, 0, 0)
  {
    NextStage(log, seen, n);
    assert log[..n] + [log[n]] == log[..n + 1];
    forall c ensures Place(log, seen, n + 1, 0, 0, c) == if c in m.clients then Some(m.clients[c]) else None {
      assert Place(log, seen, n, |log|, |log|, c) == if c in w.clients then Some(w.clients[c]) else None;
    }
  }

  lemma CommitOne(run: seq<Label>, log: seq<Event>, seen: seq<Seen>, n: nat) returns (more: seq<Label>)
    requires Prompt(log, seen) && n < |log| && InPlace(Reached(run), log, seen, n, |log|, |log|)
    ensures InPlace(Reached(more), log, seen, n + 1, 0, 0)
  {
    NextStage(log, seen, n);
    CommittedIsLog(run, log, seen, n, |log|, |log|);
    assert LoggedOk(log, seen[n], n);
    assert Place(log, seen, n, |log|, |log|, n) == Some(Reached(run).clients[n]);
    more := WaitingCommits(run, n, log[n], seen[n]);
    CommitMovesOn(Reached(run), Reached(more), log, seen, n);
  }

  /** All the reads made while the log has n entries, and then the commit of the next request. */
  lemma OneMoment(run: seq<Label>, log: seq<Event>, seen: seq<Seen>, n: nat) returns (more: seq<Label>)
    requires Prompt(log, seen) && n < |log| && InPlace(Reached(run), log, seen, n, 0, 0)
    ensures InPlace(Reached(more), log, seen, n + 1, 0, 0)
  {
    more := run;
    for a := 0 to |log|
      invariant InPlace(Reached(more), log, seen, n, a, 0)
    {
      more := ArriveOne(more, log, seen, n, a);
    }
    for b := 0 to |log|
      invariant InPlace(Reached(more), log, seen, n, |log|, b)
    {
      more := AuthorizeOne(more, log, seen, n, b);
    }
    more := CommitOne(more, log, seen, n);
  }

  lemma PromptIsScheduled(log: seq<Event>, seen: seq<Seen>) returns (run: seq<Label>)
    requires Prompt(log, seen)
    ensures Reached(run).log == log
  {
    run := [];
    for n := 0 to |log|
      invariant InPlace(Reached(run), log, seen, n, 0, 0)
    {
      run := OneMoment(run, log, seen, n);
    }
    assert log[..|log|] == log;
  }

  /** The same log, with requests that need no authentication reading when they commit. */
  lemma MadePrompt(log: seq<Event>, seen: seq<Seen>) returns (prompt: seq<Seen>)
    requires Vouched(log, seen)
    ensures Prompt(log, prompt)
  {
    prompt := seq(|log|, i requires 0 <= i < |log| => if Anonymous(log[i].request) then Seen(i, i) else seen[i]);
    forall i | 0 <= i < |log| ensures LoggedOk(log, prompt[i], i) {
      assert LoggedOk(log, seen[i], i);
    }
  }

  ghost predicate IsLogOf(run: seq<Label>, log: seq<Event>)
  {
    Reached(run).log == log
  }

  /** The logs schedules commit are exactly the honest ones: whatever requests succeed one
      after another, each vouched for by reads of its account in states committed before, some
      interleaving of clients commits in just that order, and none commits anything else. */
  lemma LogsAreExactly(log: seq<Event>)
    ensures (exists run :: IsLogOf(run, log)) <==> Honest(log)
  {
    forall run | IsLogOf(run, log) ensures Honest(log) {
      LogsAreHonest(run);
    }
    if Honest(log) {
      var seen :| Vouched(log, seen);
      var prompt := MadePrompt(log, seen);
      var run := PromptIsScheduled(log, prompt);
      assert IsLogOf(run, log);
    }
  }

  // ---------- What the server keeps ----------

  /** Under every schedule no car is booked twice on a day. */
  lemma {:induction false} NoDoubleBooking(run: seq<Label>)
    ensures Availability.OnePerDay(Reached(run).committed.reservations)
  {
    SchedulesAreSerial(run);
    Availability.OneBookingPerDay(Reached(run).log);
  }

  /** Under every schedule the status of a reservation, its payment and its audit entries
      agree, every reservation has one row in the view, and the total is over the confirmed. */
  lemma CommittedTablesAgree(run: seq<Label>, id: int)
    requires id in Reached(run).committed.reservations
    ensures var t := Reached(run).committed; var life := Lifecycle.LifeOf(t, id);
            life.Booked? && Lifecycle.Coupled(life.status, life.pay) && Trails.Tells(Trails.Word(t.audit, id), life)
    ensures var t := Reached(run).committed;
            (set row | row in Joins.ReservationRows(t) && row.reservation == id)
            == {Joins.Row(id, t.reservations[id].car, PaymentRowOf(t, id))}
    ensures var t := Reached(run).committed;
            Joins.ApprovedTotal(t) == Joins.SumBelow(t, Joins.ConfirmedIds(t), t.nextReservation)
  {
    SchedulesAreSerial(run);
    var log := Reached(run).log;
    Lifecycle.StatusesAreCoupled(log, id);
    Trails.LogTellsStatus(log, id);
    Joins.JoinsAreLossless(log, id);
    Joins.TotalIsOverConfirmed(log);
  }

  /** The account held the role in some committed state of the log. */
  ghost predicate Held(log: seq<Event>, user: int, role: Role)
  {
    exists n :: 0 <= n <= |log| && user in After(log[..n]).users && role in After(log[..n]).users[user].roles
  }

  /** Under every schedule whoever signed a transition of a reservation held the role it
      demands in a committed state, also when that role was taken away while the request was
      on its way. */
  lemma SignersHeldTheRole(run: seq<Label>, i: nat)
    requires i < |Reached(run).committed.audit| && Reached(run).committed.audit[i].target.OnReservation?
    ensures var entry := Reached(run).committed.audit[i];
            var duty := Trails.Duty(entry.action, entry.target.reservation);
            duty.Some? && Held(Reached(run).log, entry.actor, duty.value.0)
  {
    ReachedIsOk(run);
    var w := Reached(run);
    var entry := w.committed.audit[i];
    Trails.EntriesAreSigned(w.log);
    assert Trails.ProperlySigned(After(w.log), w.log, entry);
    var duty := Trails.Duty(entry.action, entry.target.reservation).value;
    var k :| 0 <= k < |w.log| && w.log[k].actor.id == entry.actor && duty.0 in w.log[k].actor.roles
      && w.log[k].request == duty.1;
    assert LoggedOk(w.log, w.seen[k], k);
    assert RolesSeen(w.log, w.seen[k].roles, w.log[k].actor);
  }

  /** Under every schedule every entry about an account or a car is signed by an account that
      sent that very request and held the administrator role in a committed state. */
  lemma OverridersHeldAdmin(run: seq<Label>, i: nat)
    requires i < |Reached(run).committed.audit| && !Reached(run).committed.audit[i].target.OnReservation?
    ensures var entry := Reached(run).committed.audit[i];
            Held(Reached(run).log, entry.actor, Admin) && Trails.OrderedBy(Reached(run).log, entry)
  {
    ReachedIsOk(run);
    var w := Reached(run);
    var entry := w.committed.audit[i];
    Trails.OverridesAreSigned(w.log);
    assert Trails.OrderedBy(w.log, entry);
    var k :| 0 <= k < |w.log| && Trails.Orders(entry, w.log[k]);
    assert LoggedOk(w.log, w.seen[k], k);
    assert RolesSeen(w.log, w.seen[k].roles, w.log[k].actor);
  }

  /** Under every schedule whoever sent a request that committed held, in a state committed
      before it, the role its route demands: a buyer to book, cancel and pay, a seller to list
      and to accept or reject, an administrator for the rest of what is not one's own account. */
  lemma SendersHeldTheRole(run: seq<Label>, i: nat)
    requires i < |Reached(run).log|
    ensures var log := Reached(run).log; var e := log[i];
            (Effects.ForBuyers(e.request) ==> Held(log[..i], e.actor.id, Buyer))
            && (Effects.ForSellers(e.request) ==> Held(log[..i], e.actor.id, Seller))
            && (Effects.ForAdmins(e.request) ==> Held(log[..i], e.actor.id, Admin))
  {
    ReachedIsOk(run);
    var w := Reached(run);
    assert LoggedOk(w.log, w.seen[i], i);
    Effects.RolesAreDemanded(After(w.log[..i]), w.log[i]);
    var r := w.seen[i].roles;
    if !Anonymous(w.log[i].request) {
      assert w.log[..i][..r] == w.log[..r];
      assert RolesSeen(w.log, r, w.log[i].actor);
    }
  }

  /** Under every schedule every error a role check or a handler answers is true of the request
      and of the tables committed when it is answered. */
  lemma AnswersAreTrue(run: seq<Label>, r: Refusal)
    requires r in Reached(run).refusals
    ensures r.at <= |Reached(run).log|
    ensures Refusals.IsTrue(After(Reached(run).log[..r.at]), r.e, r.error)
  {
    RefusalsAreSerial(run, r);
    var log := Reached(run).log[..r.at];
    Rows.AfterRowsOk(log);
    Availability.StoredDatesAreOk(log);
    Refusals.ErrorsAreTrue(After(log), r.e);
  }
}
