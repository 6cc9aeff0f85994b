// What runs keep about accounts: stored phones, sellers' phones, suspensions and their log,
// and that an administrator is always left to lift them.
module Accounts {
  import opened Common
  import opened Store
  import opened Booking
  import opened Shapes
  import opened Rows
  import Calendar
  import Phone

  // ---------- Requests one at a time ----------

  /** The request is sent by an account in good standing with the roles it holds now. */
  predicate Fresh(t: Tables, e: Event)
  {
    Anonymous(e.request)
    || (e.actor.id in t.users && t.users[e.actor.id].roles == e.actor.roles && t.users[e.actor.id].suspendedAt.None?)
  }

  /** No request starts before the one before it has ended. */
  predicate OneAtATime(events: seq<Event>)
  {
    events == [] || (OneAtATime(events[..|events| - 1]) && Fresh(After(events[..|events| - 1]), events[|events| - 1]))
  }

  // ---------- Phones ----------

  ghost predicate PhonesOk(users: map<int, User>)
  {
    forall u | u in users :: Phone.MeetsCheck(users[u].phone) && (users[u].phone == "" || Phone.IsE164(users[u].phone))
  }

  ghost predicate SellersOk(users: map<int, User>)
  {
    forall u | u in users && Seller in users[u].roles :: users[u].phone != ""
  }

  lemma NormalizedIsOk(phone: PhoneInput)
    ensures Normalized(phone).Some? ==>
              Phone.MeetsCheck(Normalized(phone).value)
                && (Normalized(phone).value == "" || Phone.IsE164(Normalized(phone).value))
  {
    if Normalized(phone).Some? {
      Phone.AcceptedIsCanonical(phone.raw, phone.cc, phone.nationalLen);
    }
  }

  /** The users an account request leaves. */
  lemma PhoneRequestsKeep(t: Tables, u: Actor, email: string, phone: PhoneInput, allowListed: bool)
    requires PhonesOk(t.users)
    ensures Enrol(t, email, phone, allowListed).Done? ==> PhonesOk(Enrol(t, email, phone, allowListed).t.users)
    ensures u.id in t.users && Promote(t, u, phone).Done? ==> PhonesOk(Promote(t, u, phone).t.users)
    ensures u.id in t.users && ChangePhone(t, u, phone).Done? ==> PhonesOk(ChangePhone(t, u, phone).t.users)
  {
    NormalizedIsOk(phone);
  }

  /** The account became no seller since the request read its roles. */
  predicate KnowsSeller(t: Tables, u: Actor)
  {
    u.id in t.users && Seller in t.users[u.id].roles ==> Seller in u.roles
  }

  lemma SellerRequestsKeep(t: Tables, u: Actor, email: string, phone: PhoneInput, allowListed: bool)
    requires SellersOk(t.users)
    ensures Enrol(t, email, phone, allowListed).Done? ==> SellersOk(Enrol(t, email, phone, allowListed).t.users)
    ensures u.id in t.users && Promote(t, u, phone).Done? ==> SellersOk(Promote(t, u, phone).t.users)
    ensures u.id in t.users && KnowsSeller(t, u) && ChangePhone(t, u, phone).Done?
        ==> SellersOk(ChangePhone(t, u, phone).t.users)
  {
  }

  /** Suspensions and role changes leave phones alone and make a seller only of an account
      with one. */
  lemma RoleRequestsKeep(t: Tables, u: Actor, r: Request)
    requires r.SuspendUser? || r.SetSeller? || r.SyncAdmins?
    requires (Anonymous(r) || u.id in t.users) && AccountOutcome(t, u, r).Done?
    ensures PhonesOk(t.users) ==> PhonesOk(AccountOutcome(t, u, r).t.users)
    ensures SellersOk(t.users) ==> SellersOk(AccountOutcome(t, u, r).t.users)
  {
  }

  lemma StepKeepsPhones(t: Tables, e: Event)
    requires PhonesOk(t.users)
    ensures PhonesOk(Commit(t, e).users)
  {
    match e.request
    case Register(email, phone, allowListed) => PhoneRequestsKeep(t, e.actor, email, phone, allowListed);
    case BecomeSeller(phone) => PhoneRequestsKeep(t, e.actor, "", phone, false);
    case UpdateMe(phone) => PhoneRequestsKeep(t, e.actor, "", phone, false);
    case _ =>
      if !OnAccount(e.request) {
        StepShape(t, e);
      } else if Perform(t, e).Done? {
        RoleRequestsKeep(t, e.actor, e.request);
      }
  }

  lemma StepKeepsSellers(t: Tables, e: Event)
    requires SellersOk(t.users) && (e.request.UpdateMe? ==> KnowsSeller(t, e.actor))
    ensures SellersOk(Commit(t, e).users)
  {
    match e.request
    case Register(email, phone, allowListed) => SellerRequestsKeep(t, e.actor, email, phone, allowListed);
    case BecomeSeller(phone) => SellerRequestsKeep(t, e.actor, "", phone, false);
    case UpdateMe(phone) => SellerRequestsKeep(t, e.actor, "", phone, false);
    case _ =>
      if !OnAccount(e.request) {
        StepShape(t, e);
      } else if Perform(t, e).Done? {
        RoleRequestsKeep(t, e.actor, e.request);
      }
  }

  /** Every stored phone is empty or canonical E.164, and meets the database CHECK. */
  lemma {:induction false} StoredPhonesAreCanonical(events: seq<Event>)
    ensures PhonesOk(After(events).users)
  {
    if events != [] {
      StoredPhonesAreCanonical(events[..|events| - 1]);
      StepKeepsPhones(After(events[..|events| - 1]), events[|events| - 1]);
    }
  }

  /** A phone update that blanks the phone of an account that is a seller by now and was not
      when the request read its roles. */
  predicate ClearsSeller(t: Tables, e: Event)
  {
    e.request.UpdateMe? && e.actor.id in t.users && Normalized(e.request.phone) == Some("")
    && Seller in t.users[e.actor.id].roles && Seller !in e.actor.roles
  }

  lemma ClearingLosesPhone(t: Tables, e: Event)
    requires ClearsSeller(t, e)
    ensures !SellersOk(Commit(t, e).users)
  {
    assert Commit(t, e).users[e.actor.id].phone == "" && Seller in Commit(t, e).users[e.actor.id].roles;
  }

  lemma OtherPhonesKeepSellers(t: Tables, u: Actor, phone: PhoneInput)
    requires SellersOk(t.users) && u.id in t.users && ChangePhone(t, u, phone).Done?
    requires KnowsSeller(t, u) || Normalized(phone) != Some("")
    ensures SellersOk(ChangePhone(t, u, phone).t.users)
  {
  }

  /** One request costs a seller its phone exactly when it clears one. */
  lemma ClearingStep(t: Tables, e: Event)
    requires SellersOk(t.users)
    ensures SellersOk(Commit(t, e).users) <==> !ClearsSeller(t, e)
  {
    if ClearsSeller(t, e) {
      ClearingLosesPhone(t, e);
    } else if e.request.UpdateMe? {
      if Perform(t, e).Done? {
        OtherPhonesKeepSellers(t, e.actor, e.request.phone);
      }
    } else {
      StepKeepsSellers(t, e);
    }
  }

  ghost predicate AlwaysSellersOk(events: seq<Event>)
  {
    forall n | 0 <= n <= |events| :: SellersOk(After(events[..n]).users)
  }

  ghost predicate NeverClears(events: seq<Event>)
  {
    forall n | 0 <= n < |events| :: !ClearsSeller(After(events[..n]), events[n])
  }

  lemma {:induction false} SellersOkUpTo(events: seq<Event>, n: nat)
    requires NeverClears(events) && n <= |events|
    ensures SellersOk(After(events[..n]).users)
  {
    if n > 0 {
      SellersOkUpTo(events, n - 1);
      AfterNext(events, n - 1);
      ClearingStep(After(events[..n - 1]), events[n - 1]);
    }
  }

  lemma SellersOkAround(events: seq<Event>, n: nat)
    requires AlwaysSellersOk(events) && n < |events|
    ensures !ClearsSeller(After(events[..n]), events[n])
  {
    AfterNext(events, n);
    ClearingStep(After(events[..n]), events[n]);
  }

  /** In any run, interleaved or not, every seller has a phone at every moment exactly when no
      phone update clears that of an account made a seller behind its back. */
  lemma SellersHavePhones(events: seq<Event>)
    ensures AlwaysSellersOk(events) <==> NeverClears(events)
  {
    if NeverClears(events) {
      forall n | 0 <= n <= |events| ensures SellersOk(After(events[..n]).users) {
        SellersOkUpTo(events, n);
      }
    }
    if AlwaysSellersOk(events) {
      forall n | 0 <= n < |events| ensures !ClearsSeller(After(events[..n]), events[n]) {
        SellersOkAround(events, n);
      }
    }
  }

  // ---------- Suspensions ----------

  predicate IsSuspension(e: Entry, user: int)
  {
    e.target == OnUser(user) && (e.action == AuditSuspend || e.action == AuditUnsuspend)
  }

  /** The suspensions and their lifting logged on an account, in order. */
  function Suspensions(audit: seq<Entry>, user: int): seq<Action>
  {
    if audit == [] then []
    else
      var last := audit[|audit| - 1];
      Suspensions(audit[..|audit| - 1], user) + if IsSuspension(last, user) then [last.action] else []
  }

  /** suspend, unsuspend, suspend, ... */
  predicate Alternates(actions: seq<Action>)
  {
    forall i | 0 <= i < |actions| :: actions[i] == if i % 2 == 0 then AuditSuspend else AuditUnsuspend
  }

  /** The last logged action decides whether the account is suspended. */
  ghost predicate LogDecides(t: Tables, user: int)
  {
    var log := Suspensions(t.audit, user);
    Alternates(log)
    && (user !in t.users ==> log == [])
    && (user in t.users ==> (t.users[user].suspendedAt.Some? <==> log != [] && log[|log| - 1] == AuditSuspend))
  }

  lemma SuspensionAppends(audit: seq<Entry>, e: Entry, user: int)
    ensures Suspensions(audit + [e], user)
         == Suspensions(audit, user) + if IsSuspension(e, user) then [e.action] else []
  {
    assert (audit + [e])[..|audit|] == audit;
  }

  lemma {:induction false} LastTellsParity(log: seq<Action>)
    requires Alternates(log)
    ensures log != [] && log[|log| - 1] == AuditSuspend <==> |log| % 2 == 1
  {
  }

  lemma AlternatesGrow(log: seq<Action>, action: Action)
    requires Alternates(log) && action == if |log| % 2 == 0 then AuditSuspend else AuditUnsuspend
    ensures Alternates(log + [action])
  {
  }

  lemma FlippedDecides(log: seq<Action>, suspended: bool, action: Action)
    requires Alternates(log) && action == if suspended then AuditSuspend else AuditUnsuspend
    requires suspended != (log != [] && log[|log| - 1] == AuditSuspend)
    ensures Alternates(log + [action]) && (log + [action])[|log|] == action
  {
    LastTellsParity(log);
    AlternatesGrow(log, action);
  }

  /** A suspension that changes something logs itself on its account, and nowhere else. */
  lemma SuspendLogs(t: Tables, u: Actor, id: int, suspended: bool, now: int, user: int)
    requires Suspend(t, u, id, suspended, now).Done? && suspended != t.users[id].suspendedAt.Some?
    ensures Suspensions(Suspend(t, u, id, suspended, now).t.audit, user)
         == Suspensions(t.audit, user)
            + if id == user then [if suspended then AuditSuspend else AuditUnsuspend] else []
  {
    SuspensionAppends(t.audit, Entry(u.id, if suspended then AuditSuspend else AuditUnsuspend, OnUser(id)), user);
  }

  lemma SuspendDecides(t: Tables, u: Actor, id: int, suspended: bool, now: int, user: int)
    requires LogDecides(t, user) && Suspend(t, u, id, suspended, now).Done?
    ensures LogDecides(Suspend(t, u, id, suspended, now).t, user)
  {
    if suspended != t.users[id].suspendedAt.Some? {
      var log := Suspensions(t.audit, user);
      SuspendLogs(t, u, id, suspended, now, user);
      if id == user {
        FlippedDecides(log, suspended, if suspended then AuditSuspend else AuditUnsuspend);
      } else {
        assert log + [] == log;
      }
    }
  }

  predicate IsRoleChange(a: Action)
  {
    a == AuditGrantSeller || a == AuditRevokeSeller
  }

  /** Whatever else happens to accounts, suspensions stay as they are. */
  ghost predicate SameStanding(t: Tables, n: Tables)
  {
    t.users.Keys <= n.users.Keys
    && (forall u | u in n.users :: n.users[u].suspendedAt == if u in t.users then t.users[u].suspendedAt else None)
    && (n.audit == t.audit
        || (|n.audit| == |t.audit| + 1 && n.audit == t.audit + [n.audit[|t.audit|]]
            && IsRoleChange(n.audit[|t.audit|].action)))
  }

  lemma PhoneRequestsKeepStanding(t: Tables, u: Actor, email: string, phone: PhoneInput, allowListed: bool)
    requires t.nextUser !in t.users
    ensures Enrol(t, email, phone, allowListed).Done? ==> SameStanding(t, Enrol(t, email, phone, allowListed).t)
    ensures u.id in t.users && Promote(t, u, phone).Done? ==> SameStanding(t, Promote(t, u, phone).t)
    ensures u.id in t.users && ChangePhone(t, u, phone).Done? ==> SameStanding(t, ChangePhone(t, u, phone).t)
  {
  }

  lemma RoleRequestsKeepStanding(t: Tables, u: Actor, id: int, seller: bool, today: string, admins: set<int>)
    ensures GrantOrRevoke(t, u, id, seller, today).Done? ==> SameStanding(t, GrantOrRevoke(t, u, id, seller, today).t)
    ensures SameStanding(t, t.(users := WithAdmins(t.users, admins)))
  {
  }

  lemma OthersKeepStanding(t: Tables, u: Actor, r: Request)
    requires OnAccount(r) && !r.SuspendUser? && t.nextUser !in t.users
    requires (Anonymous(r) || u.id in t.users) && AccountOutcome(t, u, r).Done?
    ensures SameStanding(t, AccountOutcome(t, u, r).t)
  {
    match r
    case Register(email, phone, allowListed) => PhoneRequestsKeepStanding(t, u, email, phone, allowListed);
    case BecomeSeller(phone) => PhoneRequestsKeepStanding(t, u, "", phone, false);
    case UpdateMe(phone) => PhoneRequestsKeepStanding(t, u, "", phone, false);
    case SetSeller(id, seller, today) => RoleRequestsKeepStanding(t, u, id, seller, Calendar.Format(today), {});
    case SyncAdmins(admins) => RoleRequestsKeepStanding(t, u, 0, false, "", admins);
  }

  lemma StandingKeepsDecides(t: Tables, n: Tables, user: int)
    requires LogDecides(t, user) && SameStanding(t, n)
    ensures LogDecides(n, user)
  {
    if n.audit != t.audit {
      SuspensionAppends(t.audit, n.audit[|t.audit|], user);
    }
  }

  lemma {:induction false} OtherEntriesAreSilent(before: seq<Entry>, after: seq<Entry>, user: int)
    requires Grew(before, after, (x: Target) => !x.OnUser?)
    ensures Suspensions(after, user) == Suspensions(before, user)
  {
    if |after| > |before| {
      assert after == before + [after[|before|]];
      SuspensionAppends(before, after[|before|], user);
    } else {
      assert after == before;
    }
  }

  lemma StepDecides(t: Tables, e: Event, user: int)
    requires LogDecides(t, user) && UsersOk(t.users, t.nextUser)
    ensures LogDecides(Commit(t, e), user)
  {
    if OnBooking(e.request) || OnListing(e.request) {
      StepShape(t, e);
      OtherEntriesAreSilent(t.audit, Commit(t, e).audit, user);
    } else if e.request.SuspendUser? {
      if Perform(t, e).Done? {
        SuspendDecides(t, e.actor, e.request.id, e.request.suspended, e.request.now, user);
      }
    } else if Perform(t, e).Done? {
      OthersKeepStanding(t, e.actor, e.request);
      StandingKeepsDecides(t, Commit(t, e), user);
    }
  }

  /** In every reachable state the suspend and unsuspend entries of each account alternate,
      starting with a suspension, and the last one tells whether it is suspended. */
  lemma {:induction false} LogDecidesSuspension(events: seq<Event>, user: int)
    ensures LogDecides(After(events), user)
  {
    if events != [] {
      var front := events[..|events| - 1];
      LogDecidesSuspension(front, user);
      AfterRowsOk(front);
      StepDecides(After(front), events[|events| - 1], user);
    }
  }

  // ---------- The last administrator ----------

  ghost predicate HasAdmin(users: map<int, User>)
  {
    exists u :: u in users && Admin in users[u].roles
  }

  /** Some administrator is not suspended. */
  ghost predicate Administered(users: map<int, User>)
  {
    exists u :: u in users && Admin in users[u].roles && users[u].suspendedAt.None?
  }

  ghost predicate SameAdmins(t: Tables, n: Tables)
  {
    t.users.Keys <= n.users.Keys
    && forall u | u in n.users ::
         if u in t.users
         then (Admin in n.users[u].roles <==> Admin in t.users[u].roles)
           && n.users[u].suspendedAt == t.users[u].suspendedAt
         else n.users[u].suspendedAt.None?
  }

  lemma OthersKeepAdmins(t: Tables, u: Actor, r: Request)
    requires OnAccount(r) && !r.SuspendUser? && !r.SyncAdmins? && t.nextUser !in t.users
    requires (Anonymous(r) || u.id in t.users) && AccountOutcome(t, u, r).Done?
    ensures SameAdmins(t, AccountOutcome(t, u, r).t)
  {
  }

  lemma SameAdminsAdminister(t: Tables, n: Tables)
    requires SameAdmins(t, n) && (HasAdmin(t.users) ==> Administered(t.users))
    ensures HasAdmin(n.users) ==> Administered(n.users)
  {
    if HasAdmin(n.users) {
      if HasAdmin(t.users) {
        var u :| u in t.users && Admin in t.users[u].roles && t.users[u].suspendedAt.None?;
        assert u in n.users;
      } else {
        var u :| u in n.users && Admin in n.users[u].roles;
        assert u !in t.users;
      }
    }
  }

  /** An administrator in good standing. */
  predicate Stands(users: map<int, User>, u: int)
  {
    u in users && Admin in users[u].roles && users[u].suspendedAt.None?
  }

  ghost predicate LastStanding(users: map<int, User>, id: int)
  {
    Stands(users, id) && forall u | u != id :: !Stands(users, u)
  }

  lemma AdministeredIsStanding(users: map<int, User>)
    ensures Administered(users) <==> exists u :: Stands(users, u)
  {
    if Administered(users) {
      var u :| u in users && Admin in users[u].roles && users[u].suspendedAt.None?;
      assert Stands(users, u);
    }
  }

  lemma SuspensionShifts(t: Tables, u: Actor, id: int, suspended: bool, now: int)
    requires Suspend(t, u, id, suspended, now).Done?
    ensures id in t.users && u.id != id
    ensures forall v | v != id :: Stands(Suspend(t, u, id, suspended, now).t.users, v) <==> Stands(t.users, v)
    ensures Stands(Suspend(t, u, id, suspended, now).t.users, id) <==> !suspended && Admin in t.users[id].roles
  {
  }

  /** On an administered platform a suspension leaves nobody in good standing exactly when it
      suspends the last one there is; and then whoever sent it is no administrator in good
      standing any more, since nobody suspends themselves. */
  lemma SuspensionExactly(t: Tables, u: Actor, id: int, suspended: bool, now: int)
    requires Administered(t.users) && Suspend(t, u, id, suspended, now).Done?
    ensures Administered(Suspend(t, u, id, suspended, now).t.users) <==> !(suspended && LastStanding(t.users, id))
    ensures !Administered(Suspend(t, u, id, suspended, now).t.users) ==> !Stands(t.users, u.id)
  {
    var n := Suspend(t, u, id, suspended, now).t;
    SuspensionShifts(t, u, id, suspended, now);
    AdministeredIsStanding(t.users);
    AdministeredIsStanding(n.users);
    var v :| Stands(t.users, v);
    assert v != id ==> Stands(n.users, v);
    assert v == id && !suspended ==> Stands(n.users, v);
    assert Stands(n.users, u.id) <==> Stands(t.users, u.id);
  }

  /** Some account on the allow-list exists, or is not suspended. */
  ghost predicate SomeListed(users: map<int, User>, admins: set<int>)
  {
    exists u :: u in users && u in admins
  }

  ghost predicate SomeListedStands(users: map<int, User>, admins: set<int>)
  {
    exists u :: u in users && u in admins && users[u].suspendedAt.None?
  }

  /** Reloading the allow-list leaves administrators exactly when it lists an account, and one
      in good standing exactly when it lists an account that is not suspended. */
  lemma ReloadExactly(users: map<int, User>, admins: set<int>)
    ensures HasAdmin(WithAdmins(users, admins)) <==> SomeListed(users, admins)
    ensures Administered(WithAdmins(users, admins)) <==> SomeListedStands(users, admins)
  {
    var n := WithAdmins(users, admins);
    assert forall u | u in users :: Admin in n[u].roles <==> u in admins;
    if SomeListed(users, admins) {
      var u :| u in users && u in admins;
      assert u in n && Admin in n[u].roles;
    }
    if SomeListedStands(users, admins) {
      var u :| u in users && u in admins && users[u].suspendedAt.None?;
      assert u in n && Admin in n[u].roles;
    }
  }

  /** A platform with administrators has one in good standing. */
  ghost predicate Governed(users: map<int, User>)
  {
    HasAdmin(users) ==> Administered(users)
  }

  /** The two ways to lose the last one: suspending it, and reloading a list of suspended
      accounts only. */
  ghost predicate LosesStanding(t: Tables, e: Event)
  {
    match e.request
    case SuspendUser(id, suspended, _) => Perform(t, e).Done? && suspended && LastStanding(t.users, id)
    case SyncAdmins(admins) => SomeListed(t.users, admins) && !SomeListedStands(t.users, admins)
    case _ => false
  }

  lemma SuspensionGoverns(t: Tables, u: Actor, id: int, suspended: bool, now: int)
    requires Governed(t.users) && Suspend(t, u, id, suspended, now).Done?
    ensures Governed(Suspend(t, u, id, suspended, now).t.users) <==> !(suspended && LastStanding(t.users, id))
  {
    var n := Suspend(t, u, id, suspended, now).t;
    assert n.users.Keys == t.users.Keys;
    assert forall v | v in t.users :: n.users[v].roles == t.users[v].roles;
    AdministeredIsStanding(t.users);
    if Administered(t.users) {
      SuspensionExactly(t, u, id, suspended, now);
      var v :| Stands(t.users, v);
      assert v in n.users && Admin in n.users[v].roles;
    }
  }

  /** One request ends the government of the platform exactly when it loses the last
      administrator in good standing. */
  lemma StandingStep(t: Tables, e: Event)
    requires Governed(t.users) && t.nextUser !in t.users
    ensures Governed(Commit(t, e).users) <==> !LosesStanding(t, e)
  {
    match e.request
    case SuspendUser(id, suspended, now) =>
      if Perform(t, e).Done? {
        SuspensionGoverns(t, e.actor, id, suspended, now);
      }
    case SyncAdmins(admins) => ReloadExactly(t.users, admins);
    case _ =>
      if !OnAccount(e.request) {
        StepShape(t, e);
      } else if Perform(t, e).Done? {
        OthersKeepAdmins(t, e.actor, e.request);
        SameAdminsAdminister(t, Commit(t, e));
      }
  }

  ghost predicate AlwaysGoverned(events: seq<Event>)
  {
    forall n | 0 <= n <= |events| :: Governed(After(events[..n]).users)
  }

  ghost predicate NeverLosesStanding(events: seq<Event>)
  {
    forall n | 0 <= n < |events| :: !LosesStanding(After(events[..n]), events[n])
  }

  lemma {:induction false} GovernedUpTo(events: seq<Event>, n: nat)
    requires NeverLosesStanding(events) && n <= |events|
    ensures Governed(After(events[..n]).users)
  {
    if n > 0 {
      GovernedUpTo(events, n - 1);
      AfterNext(events, n - 1);
      AfterRowsOk(events[..n - 1]);
      StandingStep(After(events[..n - 1]), events[n - 1]);
    }
  }

  lemma GovernedAround(events: seq<Event>, n: nat)
    requires AlwaysGoverned(events) && n < |events|
    ensures !LosesStanding(After(events[..n]), events[n])
  {
    AfterNext(events, n);
    AfterRowsOk(events[..n]);
    StandingStep(After(events[..n]), events[n]);
  }

  /** In any run, interleaved or not, a platform with administrators has at every moment one
      who is not suspended and can lift the other suspensions, exactly when no suspension hits
      the last of them and no reload of the allow-list names suspended accounts only. */
  lemma SomeoneCanUnsuspend(events: seq<Event>)
    ensures AlwaysGoverned(events) <==> NeverLosesStanding(events)
  {
    if NeverLosesStanding(events) {
      forall n | 0 <= n <= |events| ensures Governed(After(events[..n]).users) {
        GovernedUpTo(events, n);
      }
    }
    if AlwaysGoverned(events) {
      forall n | 0 <= n < |events| ensures !LosesStanding(After(events[..n]), events[n]) {
        GovernedAround(events, n);
      }
    }
  }

  // ---------- One at a time is enough ----------

  lemma FreshSuspenderStands(t: Tables, e: Event)
    requires Fresh(t, e) && e.request.SuspendUser?
    ensures !LosesStanding(t, e)
  {
    if Perform(t, e).Done? {
      assert Stands(t.users, e.actor.id) && e.actor.id != e.request.id;
    }
  }

  lemma {:induction false} FreshAt(events: seq<Event>, n: nat)
    requires OneAtATime(events) && n < |events|
    ensures Fresh(After(events[..n]), events[n])
  {
    if n < |events| - 1 {
      var front := events[..|events| - 1];
      FreshAt(front, n);
      assert front[..n] == events[..n];
    }
  }

  /** With requests one at a time no phone of a seller is cleared and no suspension loses the
      last administrator in good standing. */
  lemma OneAtATimeIsUpToDate(events: seq<Event>)
    requires OneAtATime(events)
    ensures NeverClears(events)
    ensures (forall e | e in events :: !e.request.SyncAdmins?) ==> NeverLosesStanding(events)
  {
    forall n | 0 <= n < |events|
      ensures !ClearsSeller(After(events[..n]), events[n])
      ensures !events[n].request.SyncAdmins? ==> !LosesStanding(After(events[..n]), events[n])
    {
      FreshAt(events, n);
      if events[n].request.SuspendUser? {
        FreshSuspenderStands(After(events[..n]), events[n]);
      }
    }
  }
}
