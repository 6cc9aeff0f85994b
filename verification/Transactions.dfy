// Many clients on one database: authentication reads outside any transaction, the writer
// lock taken at BEGIN IMMEDIATE, statements on private tables one at a time, and commit,
// rollback or a crash at any point. Every schedule is a serial run of whole requests.
module Transactions {
  import opened Common
  import opened Store
  import opened Booking
  import opened Scripts
  import opened ScriptProofs
  import opened Shapes

  /** How far a request has come. The lengths of the log at its reads of the users row and
      of the roles are kept to say later what it saw. */
  datatype Client =
    | Known(user: int, request: Request, suspended: bool, row: nat)
    | Waiting(e: Event, seen: Seen)
    | Working(e: Event, seen: Seen, p: Script, own: Tables, base: Tables, steps: nat)

  datatype Seen = Seen(row: nat, roles: nat)

  /** An error answered by a route's role check or a handler, when the log had at entries. */
  datatype Refusal = Refusal(e: Event, error: Error, at: nat)

  /** An error answered by RequireAuth: 401 or 403, for a row read when the log had at entries. */
  datatype Denial = NoAccount(user: int, at: nat) | SuspendedAccount(user: int, at: nat)

  /** log holds the requests that committed, in order, with what each had read. */
  datatype World = World(
    committed: Tables, lock: Option<int>, clients: map<int, Client>,
    log: seq<Event>, seen: seq<Seen>, refusals: seq<Refusal>, denials: seq<Denial>)

  datatype Label =
    | Arrive(client: int, user: int, request: Request)   // RequireAuth reads the users row
    | Authorize(client: int)                             // and then the roles
    | Begin(client: int)                                 // BEGIN IMMEDIATE
    | Next(client: int)                                  // one statement of the callback
    | Return(client: int)                                // the callback's end: COMMIT, or ROLLBACK and the error
    | Abort(client: int)                                 // a driver error, a panic, a failed COMMIT: ROLLBACK
    | Crash                                              // the process dies

  function Start(): World
  {
    World(EmptyTables(), None, map[], [], [], [], [])
  }

  function With(w: World, c: int, cl: Client): World
  {
    w.(clients := w.clients[c := cl])
  }

  function Without(w: World, c: int): World
  {
    w.(clients := w.clients - {c}, lock := if w.lock == Some(c) then None else w.lock)
  }

  function Advance(cl: Client): Client
    requires cl.Working?
  {
    match cl.p
    case Do(st, next) => cl.(p := next(Exec(st, cl.own).0), own := Exec(st, cl.own).1, steps := cl.steps + 1)
    case Then(st, rest) => cl.(p := rest, own := Exec(st, cl.own).1, steps := cl.steps + 1)
    case _ => cl
  }

  function Committed(w: World, c: int, cl: Client): World
    requires cl.Working?
  {
    Without(w, c).(committed := cl.own, log := w.log + [cl.e], seen := w.seen + [cl.seen])
  }

  function RolledBack(w: World, c: int, e: Event, error: Error): World
  {
    Without(w, c).(refusals := w.refusals + [Refusal(e, error, |w.log|)])
  }

  /** One step; a label whose step is not possible leaves everything as it is. */
  function Step(w: World, l: Label): World
  {
    match l
    case Arrive(c, user, request) =>
      if c in w.clients then w
      else if Anonymous(request) then With(w, c, Waiting(Event(Actor(user, {}), request), Seen(|w.log|, |w.log|)))
      else if user in w.committed.users
      then With(w, c, Known(user, request, w.committed.users[user].suspendedAt.Some?, |w.log|))
      else w.(denials := w.denials + [NoAccount(user, |w.log|)])
    case Authorize(c) =>
      if c !in w.clients || !w.clients[c].Known? then w
      else
        var k := w.clients[c];
        if k.suspended then Without(w, c).(denials := w.denials + [SuspendedAccount(k.user, k.row)])
        else if k.user !in w.committed.users then Without(w, c)
        else With(w, c, Waiting(Event(Actor(k.user, w.committed.users[k.user].roles), k.request), Seen(k.row, |w.log|)))
    case Begin(c) =>
      if c !in w.clients || !w.clients[c].Waiting? then w
      else
        var e := w.clients[c].e;
        if EarlyError(e).Some? then RolledBack(w, c, e, EarlyError(e).value)
        else if w.lock.Some? then w
        else With(w, c, Working(e, w.clients[c].seen, ScriptOf(e), w.committed, w.committed, 0)).(lock := Some(c))
    case Next(c) =>
      if c in w.clients && w.clients[c].Working? then With(w, c, Advance(w.clients[c])) else w
    case Return(c) =>
      if c !in w.clients || !w.clients[c].Working? then w
      else if w.clients[c].p.Finish? then Committed(w, c, w.clients[c])
      else if w.clients[c].p.Fail? then RolledBack(w, c, w.clients[c].e, w.clients[c].p.e)
      else w
    case Abort(c) => Without(w, c)
    case Crash => w.(clients := map[], lock := None)
  }

  function Reached(run: seq<Label>): World
  {
    if run == [] then Start() else Step(Reached(run[..|run| - 1]), run[|run| - 1])
  }

  // ---------- The invariant ----------

  /** After n requests of the log the user existed and was not suspended. */
  predicate RowSeen(log: seq<Event>, n: nat, user: int)
  {
    n <= |log| && user in After(log[..n]).users && After(log[..n]).users[user].suspendedAt.None?
  }

  predicate RolesSeen(log: seq<Event>, n: nat, u: Actor)
  {
    n <= |log| && u.id in After(log[..n]).users && After(log[..n]).users[u.id].roles == u.roles
  }

  /** What RequireAuth established for an event, both reads made within the log's first n. */
  predicate Authenticated(log: seq<Event>, e: Event, r: Seen, n: nat)
  {
    if Anonymous(e.request) then e.actor.roles == {}
    else r.row <= r.roles <= n && RowSeen(log, r.row, e.actor.id) && RolesSeen(log, r.roles, e.actor)
  }

  /** The script so far: running it further is running the whole from the base. */
  ghost predicate Underway(cl: Client)
    requires cl.Working?
  {
    forall fuel: nat :: Run(ScriptOf(cl.e), cl.base, cl.steps + fuel) == Run(cl.p, cl.own, fuel)
  }

  ghost predicate ClientOk(w: World, c: int, cl: Client)
  {
    match cl
    case Known(user, request, suspended, row) =>
      !Anonymous(request) && row <= |w.log| && user in After(w.log[..row]).users
      && (suspended <==> After(w.log[..row]).users[user].suspendedAt.Some?)
    case Waiting(e, seen) => Authenticated(w.log, e, seen, |w.log|)
    case Working(e, seen, _, _, base, _) =>
      Authenticated(w.log, e, seen, |w.log|) && EarlyError(e).None? && w.lock == Some(c) && base == w.committed
        && Underway(cl)
  }

  ghost predicate ClientsOk(w: World)
  {
    && (forall c | c in w.clients :: ClientOk(w, c, w.clients[c]))
    && (w.lock.Some? ==> w.lock.value in w.clients && w.clients[w.lock.value].Working?)
  }

  ghost predicate LogOk(w: World)
  {
    && w.committed == After(w.log) && |w.seen| == |w.log|
    && (forall i | 0 <= i < |w.log| :: LoggedOk(w.log, w.seen[i], i))
    && (forall r | r in w.refusals :: RefusalOk(w.log, r))
  }

  ghost predicate LoggedOk(log: seq<Event>, seen: Seen, i: nat)
    requires i < |log|
  {
    Authenticated(log, log[i], seen, i) && Perform(After(log[..i]), log[i]).Done?
  }

  ghost predicate RefusalOk(log: seq<Event>, r: Refusal)
  {
    r.at <= |log| && Perform(After(log[..r.at]), r.e) == Refused(r.error)
  }

  // ---------- Runs only grow the log ----------

  lemma {:induction false} UsersStayAfter(log: seq<Event>, n: nat)
    requires n <= |log|
    ensures After(log[..n]).users.Keys <= After(log).users.Keys
    decreases |log| - n
  {
    if n == |log| {
      assert log[..n] == log;
    } else {
      assert log[..n + 1][..n] == log[..n] && log[..n + 1][n] == log[n];
      StepShape(After(log[..n]), log[n]);
      UsersStayAfter(log, n + 1);
    }
  }

  /** A longer log has the same past. */
  lemma PastStays(log: seq<Event>, e: Event, n: nat)
    requires n <= |log|
    ensures (log + [e])[..n] == log[..n]
  {
  }

  lemma AuthenticatedStays(log: seq<Event>, next: Event, e: Event, r: Seen, n: nat)
    requires n <= |log| && Authenticated(log, e, r, n)
    ensures Authenticated(log + [next], e, r, n) && Authenticated(log + [next], e, r, n + 1)
  {
    if !Anonymous(e.request) {
      PastStays(log, next, r.row);
      PastStays(log, next, r.roles);
    }
  }

  lemma AuthenticatedIsPresent(w: World, e: Event, r: Seen)
    requires LogOk(w) && Authenticated(w.log, e, r, |w.log|)
    ensures Anonymous(e.request) || e.actor.id in w.committed.users
  {
    if !Anonymous(e.request) {
      UsersStayAfter(w.log, r.row);
    }
  }

  // ---------- Every step keeps the invariant ----------

  lemma WholeLog(w: World)
    ensures w.log[..|w.log|] == w.log
  {
  }

  lemma ArriveKeeps(w: World, c: int, user: int, request: Request)
    requires LogOk(w) && ClientsOk(w)
    ensures LogOk(Step(w, Arrive(c, user, request))) && ClientsOk(Step(w, Arrive(c, user, request)))
  {
    WholeLog(w);
  }

  lemma AuthorizeKeeps(w: World, c: int)
    requires LogOk(w) && ClientsOk(w)
    ensures LogOk(Step(w, Authorize(c))) && ClientsOk(Step(w, Authorize(c)))
  {
    WholeLog(w);
  }

  lemma RefuseKeeps(w: World, c: int, e: Event, error: Error)
    requires LogOk(w) && ClientsOk(w) && c in w.clients
    requires Perform(w.committed, e) == Refused(error)
    ensures LogOk(RolledBack(w, c, e, error)) && ClientsOk(RolledBack(w, c, e, error))
  {
    WholeLog(w);
  }

  lemma BeginKeeps(w: World, c: int)
    requires LogOk(w) && ClientsOk(w)
    ensures LogOk(Step(w, Begin(c))) && ClientsOk(Step(w, Begin(c)))
  {
    if c in w.clients && w.clients[c].Waiting? {
      var e := w.clients[c].e;
      if EarlyError(e).Some? {
        AuthenticatedIsPresent(w, e, w.clients[c].seen);
        RefuseKeeps(w, c, e, EarlyError(e).value);
      }
    }
  }

  lemma AdvanceKeepsUnderway(cl: Client)
    requires cl.Working? && Underway(cl)
    ensures Underway(Advance(cl))
  {
    if cl.p.Do? || cl.p.Then? {
      forall fuel: nat
        ensures Run(ScriptOf(cl.e), cl.base, cl.steps + 1 + fuel) == Run(Advance(cl).p, Advance(cl).own, fuel)
      {
        assert Run(ScriptOf(cl.e), cl.base, cl.steps + (fuel + 1)) == Run(cl.p, cl.own, fuel + 1);
      }
    }
  }

  lemma NextKeeps(w: World, c: int)
    requires LogOk(w) && ClientsOk(w)
    ensures LogOk(Step(w, Next(c))) && ClientsOk(Step(w, Next(c)))
  {
    if c in w.clients && w.clients[c].Working? {
      AdvanceKeepsUnderway(w.clients[c]);
    }
  }

  /** A script at its end has the outcome of the whole request on the tables it began with. */
  lemma EndedIsPerform(cl: Client)
    requires cl.Working? && Underway(cl) && (cl.p.Finish? || cl.p.Fail?)
    requires Anonymous(cl.e.request) || cl.e.actor.id in cl.base.users
    ensures Perform(cl.base, cl.e) == if cl.p.Finish? then Done(cl.own) else Refused(cl.p.e)
  {
    ScriptIsPerform(cl.e, cl.base);
    var n: nat :| EndsWithin(ScriptOf(cl.e), cl.base, Perform(cl.base, cl.e), n);
    assert Run(ScriptOf(cl.e), cl.base, cl.steps + n) == Run(cl.p, cl.own, n);
  }

  lemma CommitKeepsLog(w: World, c: int)
    requires LogOk(w) && ClientsOk(w) && c in w.clients && w.clients[c].Working?
    requires Perform(w.committed, w.clients[c].e) == Done(w.clients[c].own)
    ensures LogOk(Committed(w, c, w.clients[c]))
  {
    var cl := w.clients[c];
    var n := Committed(w, c, cl);
    WholeLog(w);
    assert n.log[..|w.log|] == w.log;
    forall i | 0 <= i < |n.log| ensures LoggedOk(n.log, n.seen[i], i) {
      if i < |w.log| {
        assert LoggedOk(w.log, w.seen[i], i);
        AuthenticatedStays(w.log, cl.e, w.log[i], w.seen[i], i);
        PastStays(w.log, cl.e, i);
      } else {
        AuthenticatedStays(w.log, cl.e, cl.e, cl.seen, i);
      }
    }
    forall r | r in n.refusals ensures RefusalOk(n.log, r) {
      assert RefusalOk(w.log, r);
      PastStays(w.log, cl.e, r.at);
    }
  }

  lemma CommitKeepsClients(w: World, c: int)
    requires LogOk(w) && ClientsOk(w) && c in w.clients && w.clients[c].Working?
    ensures ClientsOk(Committed(w, c, w.clients[c]))
  {
    var n := Committed(w, c, w.clients[c]);
    assert ClientOk(w, c, w.clients[c]);
    forall d | d in n.clients ensures ClientOk(n, d, n.clients[d]) {
      var cl := w.clients[d];
      assert ClientOk(w, d, cl);
      match cl
      case Known(_, _, _, row) => PastStays(w.log, w.clients[c].e, row);
      case Waiting(e, seen) => AuthenticatedStays(w.log, w.clients[c].e, e, seen, |w.log|);
      case Working(_, _, _, _, _, _) => assert false;
    }
  }

  lemma ReturnKeeps(w: World, c: int)
    requires LogOk(w) && ClientsOk(w)
    ensures LogOk(Step(w, Return(c))) && ClientsOk(Step(w, Return(c)))
  {
    if c in w.clients && w.clients[c].Working? && (w.clients[c].p.Finish? || w.clients[c].p.Fail?) {
      var cl := w.clients[c];
      assert ClientOk(w, c, cl);
      AuthenticatedIsPresent(w, cl.e, cl.seen);
      EndedIsPerform(cl);
      if cl.p.Finish? {
        CommitKeepsLog(w, c);
        CommitKeepsClients(w, c);
      } else {
        RefuseKeeps(w, c, cl.e, cl.p.e);
      }
    }
  }

  lemma StopKeeps(w: World, l: Label)
    requires LogOk(w) && ClientsOk(w) && (l.Abort? || l.Crash?)
    ensures LogOk(Step(w, l)) && ClientsOk(Step(w, l))
  {
  }

  lemma StepKeeps(w: World, l: Label)
    requires LogOk(w) && ClientsOk(w)
    ensures LogOk(Step(w, l)) && ClientsOk(Step(w, l))
  {
    match l
    case Arrive(c, user, request) => ArriveKeeps(w, c, user, request);
    case Authorize(c) => AuthorizeKeeps(w, c);
    case Begin(c) => BeginKeeps(w, c);
    case Next(c) => NextKeeps(w, c);
    case Return(c) => ReturnKeeps(w, c);
    case Abort(c) => StopKeeps(w, l);
    case Crash => StopKeeps(w, l);
  }

  lemma {:induction false} ReachedIsOk(run: seq<Label>)
    ensures LogOk(Reached(run)) && ClientsOk(Reached(run))
  {
    if run != [] {
      ReachedIsOk(run[..|run| - 1]);
      StepKeeps(Reached(run[..|run| - 1]), run[|run| - 1]);
    }
  }

  // ---------- What every schedule promises ----------

  /** Whatever the interleaving and wherever requests fail, panic, lose their COMMIT or
      crash, the committed tables are those of the successful requests taken whole, one
      after another in the order of their commits, each of them succeeding in its place. */
  lemma {:induction false} SchedulesAreSerial(run: seq<Label>)
    ensures Reached(run).committed == After(Reached(run).log)
    ensures forall i | 0 <= i < |Reached(run).log| :: Perform(After(Reached(run).log[..i]), Reached(run).log[i]).Done?
  {
    ReachedIsOk(run);
    var w := Reached(run);
    forall i | 0 <= i < |w.log| ensures Perform(After(w.log[..i]), w.log[i]).Done? {
      assert LoggedOk(w.log, w.seen[i], i);
    }
  }

  /** Every error a role check or a handler answers is the one the whole request gives on the
      tables committed when it was answered. */
  lemma {:induction false} RefusalsAreSerial(run: seq<Label>, r: Refusal)
    requires r in Reached(run).refusals
    ensures r.at <= |Reached(run).log|
    ensures Perform(After(Reached(run).log[..r.at]), r.e) == Refused(r.error)
  {
    ReachedIsOk(run);
  }

  /** The tables a denial's row was read from justify it. */
  predicate DenialOk(log: seq<Event>, d: Denial)
  {
    d.at <= |log|
    && match d
       case NoAccount(user, at) => user !in After(log[..at]).users
       case SuspendedAccount(user, at) =>
         user in After(log[..at]).users && After(log[..at]).users[user].suspendedAt.Some?
  }

  ghost predicate DenialsOk(w: World)
  {
    forall d | d in w.denials :: DenialOk(w.log, d)
  }

  lemma DenialStays(log: seq<Event>, e: Event, d: Denial)
    requires DenialOk(log, d)
    ensures DenialOk(log + [e], d)
  {
    PastStays(log, e, d.at);
  }

  /** A step adds at most one denial, and grows the log by at most one request. */
  lemma StepDenies(w: World, l: Label)
    requires LogOk(w) && ClientsOk(w)
    ensures var n := Step(w, l);
            (n.log == w.log || (n.denials == w.denials && exists e :: n.log == w.log + [e]))
            && forall d | d in n.denials :: d in w.denials || DenialOk(w.log, d)
  {
    WholeLog(w);
    if l.Authorize? && l.client in w.clients && w.clients[l.client].Known? {
      assert ClientOk(w, l.client, w.clients[l.client]);
    }
  }

  lemma DenialsKept(w: World, n: World)
    requires DenialsOk(w) && forall d | d in n.denials :: d in w.denials || DenialOk(w.log, d)
    requires n.log == w.log || (n.denials == w.denials && exists e :: n.log == w.log + [e])
    ensures DenialsOk(n)
  {
    if n.log != w.log {
      var e :| n.log == w.log + [e];
      forall d | d in n.denials ensures DenialOk(n.log, d) {
        DenialStays(w.log, e, d);
      }
    }
  }

  /** Every request RequireAuth turns away came from an account that, in the committed tables
      its row was read from, did not exist or was suspended. */
  lemma {:induction false} DenialsAreJustified(run: seq<Label>)
    ensures DenialsOk(Reached(run))
  {
    if run != [] {
      var front := run[..|run| - 1];
      DenialsAreJustified(front);
      ReachedIsOk(front);
      StepDenies(Reached(front), run[|run| - 1]);
      DenialsKept(Reached(front), Reached(run));
    }
  }

  /** A log in which every request succeeds in its place, sent by an account that existed and
      was not suspended when its row was read, with the roles it held when they were read, both
      before its commit. */
  ghost predicate Honest(log: seq<Event>)
  {
    exists seen: seq<Seen> :: Vouched(log, seen)
  }

  ghost predicate Vouched(log: seq<Event>, seen: seq<Seen>)
  {
    |seen| == |log| && forall i | 0 <= i < |log| :: LoggedOk(log, seen[i], i)
  }

  lemma LogsAreHonest(run: seq<Label>)
    ensures Honest(Reached(run).log)
  {
    ReachedIsOk(run);
    assert Vouched(Reached(run).log, Reached(run).seen);
  }

  /** While a transaction is open it is the only one, and the tables its guards read are
      still the committed ones, at its commit too. */
  lemma {:induction false} GuardsStillHold(run: seq<Label>, c: int, d: int)
    requires c in Reached(run).clients && Reached(run).clients[c].Working?
    ensures Reached(run).clients[c].base == Reached(run).committed
    ensures d in Reached(run).clients && Reached(run).clients[d].Working? ==> d == c
  {
    ReachedIsOk(run);
  }

  /** Only the COMMIT of a finished callback moves the committed tables, and it moves them
      by that whole request. */
  lemma {:induction false} OnlyCommitsMove(run: seq<Label>, l: Label)
    requires Step(Reached(run), l).committed != Reached(run).committed
    ensures l.Return? && l.client in Reached(run).clients
    ensures Reached(run).clients[l.client].Working? && Reached(run).clients[l.client].p.Finish?
    ensures Step(Reached(run), l).committed == Commit(Reached(run).committed, Reached(run).clients[l.client].e)
  {
    ReachedIsOk(run);
    var w := Reached(run);
    var cl := w.clients[l.client];
    assert ClientOk(w, l.client, cl);
    AuthenticatedIsPresent(w, cl.e, cl.seen);
    EndedIsPerform(cl);
  }
}
