// Two promises that need their condition: schedules in which a check made before the
// transaction is out of date when its write commits.
module Races {
  import opened Common
  import opened Store
  import opened Booking
  import opened Transactions
  import opened Server
  import opened Accounts

  /** One more entry of a log that is vouched for so far. */
  lemma OneMoreVouched(log: seq<Event>, seen: seq<Seen>, e: Event, r: Seen)
    requires Vouched(log, seen) && Authenticated(log, e, r, |log|) && Perform(After(log), e).Done?
    ensures Vouched(log + [e], seen + [r]) && After(log + [e]) == Commit(After(log), e)
  {
    var more := log + [e];
    assert more[..|log|] == log && log[..|log|] == log;
    forall i | 0 <= i < |more| ensures LoggedOk(more, (seen + [r])[i], i) {
      if i < |log| {
        assert LoggedOk(log, seen[i], i);
        AuthenticatedStays(log, e, log[i], seen[i], i);
        PastStays(log, e, i);
      } else {
        AuthenticatedStays(log, e, e, r, i);
      }
    }
  }

  lemma LogIsReached(log: seq<Event>) returns (run: seq<Label>)
    requires Honest(log)
    ensures Reached(run).log == log && Reached(run).committed == After(log)
  {
    LogsAreExactly(log);
    run :| IsLogOf(run, log);
    SchedulesAreSerial(run);
  }

  // ---------- The requests of the two races ----------

  function Enrols(email: string, input: PhoneInput, allowListed: bool): Event
  {
    Event(Actor(0, {}), Register(email, input, allowListed))
  }

  function NewUser(t: Tables, email: string, phone: string, roles: set<Role>): Tables
  {
    t.(users := t.users[t.nextUser := User(email, phone, roles, None)], nextUser := t.nextUser + 1)
  }

  /** An account without a phone; on the allow-list it administers. */
  lemma BlankEnrols(t: Tables, email: string, blank: PhoneInput, allowListed: bool)
    requires Normalized(blank) == Some("") && UserByEmail(t.users, email) == {}
    ensures Perform(t, Enrols(email, blank, allowListed))
         == Done(NewUser(t, email, "", if allowListed then {Buyer, Admin} else {Buyer}))
  {
    assert {Buyer} + {} + {Admin} == {Buyer, Admin} && {Buyer} + {} + {} == {Buyer};
  }

  lemma Promotes(t: Tables, u: Actor, input: PhoneInput)
    requires u.id in t.users && Normalized(input).Some? && Normalized(input).value != "" && Seller !in u.roles
    ensures Perform(t, Event(u, BecomeSeller(input)))
         == Done(t.(users := t.users[u.id := t.users[u.id].(phone := Normalized(input).value,
                                                             roles := t.users[u.id].roles + {Seller})]))
  {
  }

  lemma Clears(t: Tables, u: Actor, blank: PhoneInput)
    requires u.id in t.users && Normalized(blank) == Some("") && Seller !in u.roles
    ensures Perform(t, Event(u, UpdateMe(blank))) == Done(t.(users := t.users[u.id := t.users[u.id].(phone := "")]))
  {
  }

  lemma Suspends(t: Tables, u: Actor, id: int, now: int)
    requires u.id in t.users && Admin in u.roles && u.id != id && id in t.users && t.users[id].suspendedAt.None?
    ensures Perform(t, Event(u, SuspendUser(id, true, now)))
         == Done(t.(users := t.users[id := t.users[id].(suspendedAt := Some(now))],
                    audit := t.audit + [Entry(u.id, AuditSuspend, OnUser(id))]))
  {
  }

  // ---------- A seller without a phone ----------

  const BUYER: Actor := Actor(1, {Buyer})

  /** The phone update of a buyer reads its roles, the same account becomes a seller, and then
      the update, still taking it for a buyer, clears the phone: for any phones. */
  lemma ClearingRace(email: string, number: PhoneInput, blank: PhoneInput) returns (run: seq<Label>)
    requires Normalized(number).Some? && Normalized(number).value != "" && Normalized(blank) == Some("")
    ensures Reached(run).log == [Enrols(email, blank, false), Event(BUYER, BecomeSeller(number)),
                                 Event(BUYER, UpdateMe(blank))]
    ensures !SellersOk(Reached(run).committed.users)
  {
    var a, b, c := Enrols(email, blank, false), Event(BUYER, BecomeSeller(number)), Event(BUYER, UpdateMe(blank));
    var t1 := EnrolFirst(a, email, blank);
    Promotes(t1, BUYER, number);
    assert [a][..1] == [a];
    OneMoreVouched([a], [Seen(0, 0)], b, Seen(1, 1));
    var t2 := Commit(t1, b);
    Clears(t2, BUYER, blank);
    assert ([a] + [b])[..1] == [a];
    OneMoreVouched([a] + [b], [Seen(0, 0)] + [Seen(1, 1)], c, Seen(1, 1));
    run := LogIsReached([a] + [b] + [c]);
    assert [a] + [b] + [c] == [a, b, c];
    assert Seller in Reached(run).committed.users[1].roles && Reached(run).committed.users[1].phone == "";
  }

  lemma EnrolFirst(a: Event, email: string, blank: PhoneInput) returns (t: Tables)
    requires a == Enrols(email, blank, false) && Normalized(blank) == Some("")
    ensures t == NewUser(EmptyTables(), email, "", {Buyer}) == After([a]) && Vouched([a], [Seen(0, 0)])
  {
    t := NewUser(EmptyTables(), email, "", {Buyer});
    assert UserByEmail(EmptyTables().users, email) == {};
    BlankEnrols(EmptyTables(), email, blank, false);
    assert [] + [a] == [a] && [] + [Seen(0, 0)] == [Seen(0, 0)];
    OneMoreVouched([], [], a, Seen(0, 0));
  }

  // ---------- Nobody left to lift suspensions ----------

  const ADMINS: set<Role> := {Buyer, Admin}

  lemma TwoAdminsEnrol(first: string, second: string, blank: PhoneInput)
    requires first != second && Normalized(blank) == Some("")
    ensures var log := [Enrols(first, blank, true), Enrols(second, blank, true)];
            Vouched(log, [Seen(0, 0), Seen(1, 1)])
            && After(log) == NewUser(NewUser(EmptyTables(), first, "", ADMINS), second, "", ADMINS)
  {
    var a, b := Enrols(first, blank, true), Enrols(second, blank, true);
    var t1 := NewUser(EmptyTables(), first, "", ADMINS);
    assert UserByEmail(EmptyTables().users, first) == {};
    BlankEnrols(EmptyTables(), first, blank, true);
    OneMoreVouched([], [], a, Seen(0, 0));
    assert [] + [a] == [a] && [] + [Seen(0, 0)] == [Seen(0, 0)];
    assert UserByEmail(t1.users, second) == {};
    BlankEnrols(t1, second, blank, true);
    OneMoreVouched([a], [Seen(0, 0)], b, Seen(1, 1));
    assert [a] + [b] == [a, b] && [Seen(0, 0)] + [Seen(1, 1)] == [Seen(0, 0), Seen(1, 1)];
  }

  /** Two administrators, both authenticated before either commits, suspend each other. */
  lemma MutualSuspension(first: string, second: string, blank: PhoneInput, now: int) returns (run: seq<Label>)
    requires first != second && Normalized(blank) == Some("")
    ensures Reached(run).log == [Enrols(first, blank, true), Enrols(second, blank, true),
                                 Event(Actor(1, ADMINS), SuspendUser(2, true, now)),
                                 Event(Actor(2, ADMINS), SuspendUser(1, true, now))]
    ensures HasAdmin(Reached(run).committed.users) && !Administered(Reached(run).committed.users)
  {
    var c, d := Event(Actor(1, ADMINS), SuspendUser(2, true, now)), Event(Actor(2, ADMINS), SuspendUser(1, true, now));
    var log, seen := [Enrols(first, blank, true), Enrols(second, blank, true)], [Seen(0, 0), Seen(1, 1)];
    TwoAdminsEnrol(first, second, blank);
    Suspends(After(log), c.actor, 2, now);
    assert log[..2] == log;
    OneMoreVouched(log, seen, c, Seen(2, 2));
    Suspends(After(log + [c]), d.actor, 1, now);
    assert (log + [c])[..2] == log;
    OneMoreVouched(log + [c], seen + [Seen(2, 2)], d, Seen(2, 2));
    run := LogIsReached(log + [c] + [d]);
    assert Admin in Reached(run).committed.users[1].roles;
  }
}
