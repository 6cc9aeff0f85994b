// Many clients presenting refresh tokens at once, with logins, logouts, the revoked-token
// garbage collector and the clock in between. RotateRefresh is not a transaction: each of
// its statements is a step of its own here, and a presenter can stop after any of them.
module SessionRuns {
  import opened Sessions

  /** How far a presenter has come in RotateRefresh with token t. */
  datatype Phase =
    | Presented(t: Token)             // parsed
    | Loaded(t: Token)                // account read, not superseded, not suspended
    | Claimed(t: Token)               // its jti insert succeeded
    | Replaying(t: Token)             // its jti insert was refused
    | Stamping(t: Token, stamp: int)  // the replay stamp is computed
    | Signed(t: Token)                // the access token is signed, the refresh is next

  datatype Label =
    | Tick(nanos: nat)
    | Enrol(user: int)
    | Login(user: int)
    | Logout(jti: nat)
    | Gc
    | Suspend(user: int, suspended: bool)
    | ChangePassword(user: int)
    | Present(client: int, jti: nat)
    | Load(client: int)
    | Claim(client: int)
    | ReadStamp(client: int)
    | Invalidate(client: int)
    | SignAccess(client: int)
    | SignRefresh(client: int)
    | Die(client: int)

  /** dead is the ideal table that never forgets; issued, minted (consumed jti, new refresh
      jti) and logins record history. */
  datatype Sys = Sys(
    now: int, db: Tables, issued: map<nat, Token>, nextJti: nat, clients: map<int, Phase>,
    dead: map<nat, int>, minted: seq<(nat, nat)>, logins: map<int, nat>)

  function Start(now: nat): Sys
  {
    Sys(now, Tables(map[], map[]), map[], 0, map[], map[], [], map[])
  }

  function Logins(s: Sys, user: int): nat
  {
    if user in s.logins then s.logins[user] else 0
  }

  function Issue(s: Sys, user: int, audience: Audience): Sys
  {
    s.(issued := s.issued[s.nextJti := Sign(user, audience, s.now, s.nextJti)], nextJti := s.nextJti + 1)
  }

  function Kill(s: Sys, t: Token): Sys
  {
    s.(db := s.db.(revoked := s.db.revoked[t.jti := t.exp]), dead := s.dead[t.jti := t.exp])
  }

  function SetAccount(s: Sys, user: int, a: Account): Sys
  {
    s.(db := s.db.(accounts := s.db.accounts[user := a]))
  }

  function Moved(s: Sys, c: int, p: Phase): Sys
  {
    s.(clients := s.clients[c := p])
  }

  function Left(s: Sys, c: int): Sys
  {
    s.(clients := s.clients - {c})
  }

  function Minted(s: Sys, c: int, parent: Token): Sys
  {
    Left(Issue(s, parent.user, Refresh).(minted := s.minted + [(parent.jti, s.nextJti)]), c)
  }

  /** One step; a label whose step is not possible leaves everything as it is. Login reads the
      account before it signs, so one suspended in between still gets its tokens: the step
      asks only that the account exists. */
  function Step(s: Sys, l: Label): Sys
  {
    match l
    case Tick(nanos) => s.(now := s.now + nanos)
    case Enrol(user) => if user in s.db.accounts then s else SetAccount(s, user, Account(0, false))
    case Login(user) =>
      if user !in s.db.accounts then s
      else Issue(Issue(s, user, Access), user, Refresh).(logins := s.logins[user := Logins(s, user) + 1])
    case Logout(jti) =>
      if jti in s.issued && Parses(s.issued[jti], Access, s.now) && jti !in s.db.revoked then Kill(s, s.issued[jti])
      else s
    case Gc => s.(db := s.db.(revoked := Collected(s.db.revoked, s.now)))
    case Suspend(user, b) =>
      if user in s.db.accounts then SetAccount(s, user, s.db.accounts[user].(suspended := b)) else s
    case ChangePassword(user) =>
      if user in s.db.accounts then SetAccount(s, user, s.db.accounts[user].(validAfter := Unix(s.now))) else s
    case Present(c, jti) =>
      if c !in s.clients && jti in s.issued && Parses(s.issued[jti], Refresh, s.now)
      then s.(clients := s.clients[c := Presented(s.issued[jti])]) else s
    case Die(c) => Left(s, c)
    case Load(c) =>
      if c !in s.clients || !s.clients[c].Presented? then s
      else if AccountVerdict(s.db.accounts, s.clients[c].t) == Pass then Moved(s, c, Loaded(s.clients[c].t))
      else Left(s, c)
    case Claim(c) =>
      if c !in s.clients || !s.clients[c].Loaded? then s
      else if s.clients[c].t.jti in s.db.revoked then Moved(s, c, Replaying(s.clients[c].t))
      else Moved(Kill(s, s.clients[c].t), c, Claimed(s.clients[c].t))
    case ReadStamp(c) =>
      if c in s.clients && s.clients[c].Replaying?
      then Moved(s, c, Stamping(s.clients[c].t, ReplayStamp(s.clients[c].t, s.now))) else s
    case Invalidate(c) =>
      if c in s.clients && s.clients[c].Stamping?
      then Left(s.(db := WithValidAfter(s.db, s.clients[c].t.user, s.clients[c].stamp)), c) else s
    case SignAccess(c) =>
      if c in s.clients && s.clients[c].Claimed?
      then Moved(Issue(s, s.clients[c].t.user, Access), c, Signed(s.clients[c].t)) else s
    case SignRefresh(c) =>
      if c in s.clients && s.clients[c].Signed? then Minted(s, c, s.clients[c].t) else s
  }

  function Run(s: Sys, run: seq<Label>): Sys
  {
    if run == [] then s else Step(Run(s, run[..|run| - 1]), run[|run| - 1])
  }

  // ---------- The table agrees with the ideal set ----------

  ghost predicate Recorded(s: Sys)
  {
    && (forall j | j in s.issued :: j < s.nextJti && s.issued[j].jti == j)
    && (forall c | c in s.clients ::
          s.clients[c].t.jti in s.issued && s.issued[s.clients[c].t.jti] == s.clients[c].t
            && s.clients[c].t.audience == Refresh)
  }

  /** The table is the ideal set less tokens whose exp second is over. */
  ghost predicate TableIsRecent(s: Sys)
  {
    && (forall j | j in s.dead :: j in s.issued && s.dead[j] == s.issued[j].exp)
    && (forall j | j in s.db.revoked :: j in s.dead && s.dead[j] == s.db.revoked[j])
    && (forall j | j in s.dead && j !in s.db.revoked :: s.dead[j] < Unix(s.now))
  }

  lemma StepKeepsRecorded(s: Sys, l: Label)
    requires Recorded(s)
    ensures Recorded(Step(s, l))
  {
  }

  lemma IssuingKeepsTable(s: Sys, l: Label)
    requires Recorded(s) && TableIsRecent(s) && (l.Login? || l.SignAccess? || l.SignRefresh?)
    ensures TableIsRecent(Step(s, l))
  {
  }

  lemma KillingKeepsTable(s: Sys, l: Label)
    requires Recorded(s) && TableIsRecent(s) && (l.Logout? || l.Claim?)
    ensures TableIsRecent(Step(s, l))
  {
  }

  lemma CollectingKeepsTable(s: Sys, l: Label)
    requires TableIsRecent(s) && (l.Gc? || l.Tick?)
    ensures TableIsRecent(Step(s, l))
  {
  }

  lemma OthersKeepTable(s: Sys, l: Label)
    requires TableIsRecent(s)
    requires !l.Login? && !l.SignAccess? && !l.SignRefresh? && !l.Logout? && !l.Claim? && !l.Gc? && !l.Tick?
    ensures TableIsRecent(Step(s, l))
  {
  }

  lemma StepKeepsTableRecent(s: Sys, l: Label)
    requires Recorded(s) && TableIsRecent(s)
    ensures TableIsRecent(Step(s, l))
  {
    if l.Login? || l.SignAccess? || l.SignRefresh? {
      IssuingKeepsTable(s, l);
    } else if l.Logout? || l.Claim? {
      KillingKeepsTable(s, l);
    } else if l.Gc? || l.Tick? {
      CollectingKeepsTable(s, l);
    } else {
      OthersKeepTable(s, l);
    }
  }

  lemma {:induction false} RunKeepsTable(start: nat, run: seq<Label>)
    ensures Recorded(Run(Start(start), run)) && TableIsRecent(Run(Start(start), run))
  {
    if run != [] {
      RunKeepsTable(start, run[..|run| - 1]);
      StepKeepsRecorded(Run(Start(start), run[..|run| - 1]), run[|run| - 1]);
      StepKeepsTableRecent(Run(Start(start), run[..|run| - 1]), run[|run| - 1]);
    }
  }

  function RotationVerdict(accounts: map<int, Account>, dead: set<nat>, t: Token, now: int): Verdict
  {
    if !Parses(t, Refresh, now) then InvalidToken
    else if AccountVerdict(accounts, t) != Pass then AccountVerdict(accounts, t)
    else if t.jti in dead then Reused
    else Pass
  }

  /** Forgetting is invisible: in every run, every issued token gets the same answer from
      the collected table as from a table that never forgets, both as a bearer token and
      when presented for rotation. */
  lemma CollectionIsUnobservable(start: nat, run: seq<Label>, jti: nat)
    requires jti in Run(Start(start), run).issued
    ensures var s := Run(Start(start), run);
      AuthVerdict(s.db.accounts, s.db.revoked.Keys, s.issued[jti], s.now)
        == AuthVerdict(s.db.accounts, s.dead.Keys, s.issued[jti], s.now)
      && RotationVerdict(s.db.accounts, s.db.revoked.Keys, s.issued[jti], s.now)
        == RotationVerdict(s.db.accounts, s.dead.Keys, s.issued[jti], s.now)
  {
    RunKeepsTable(start, run);
    var s := Run(Start(start), run);
    if jti in s.dead && jti !in s.db.revoked {
      assert s.now >= s.issued[jti].exp * NANOS;
    }
  }

  lemma StepNeverForgets(s: Sys, l: Label)
    ensures s.dead.Keys <= Step(s, l).dead.Keys
    ensures s.issued.Keys <= Step(s, l).issued.Keys
  {
  }

  lemma {:induction false} RunsNeverForget(start: nat, run: seq<Label>, more: seq<Label>)
    ensures Run(Start(start), run).dead.Keys <= Run(Start(start), run + more).dead.Keys
    ensures Run(Start(start), run).issued.Keys <= Run(Start(start), run + more).issued.Keys
  {
    if more == [] {
      assert run + more == run;
    } else {
      var front := more[..|more| - 1];
      assert (run + more)[..|run + more| - 1] == run + front;
      RunsNeverForget(start, run, front);
      RunKeepsTable(start, run + front);
      StepNeverForgets(Run(Start(start), run + front), more[|more| - 1]);
    }
  }

  /** A logged-out access token and a consumed refresh token are never accepted again,
      however the run goes on. */
  lemma DeadTokensStayDead(start: nat, run: seq<Label>, more: seq<Label>, jti: nat)
    requires jti in Run(Start(start), run).dead
    ensures jti in Run(Start(start), run + more).issued
    ensures var s := Run(Start(start), run + more);
      AuthVerdict(s.db.accounts, s.db.revoked.Keys, s.issued[jti], s.now) != Pass
      && RotationVerdict(s.db.accounts, s.db.revoked.Keys, s.issued[jti], s.now) != Pass
  {
    RunsNeverForget(start, run, more);
    RunKeepsTable(start, run + more);
    CollectionIsUnobservable(start, run + more, jti);
  }

  // ---------- One pair per refresh token ----------

  /** The claim is made no later than the second the token expires in. */
  predicate Timely(s: Sys, l: Label)
  {
    l.Claim? && l.client in s.clients && s.clients[l.client].Loaded? ==> Unix(s.now) <= s.clients[l.client].t.exp
  }

  predicate TimelyRun(start: nat, run: seq<Label>)
  {
    run == [] || (TimelyRun(start, run[..|run| - 1]) && Timely(Run(Start(start), run[..|run| - 1]), run[|run| - 1]))
  }

  /** A client that has consumed a token and not yet signed the refresh token for it. */
  predicate Holds(p: Phase)
  {
    p.Claimed? || p.Signed?
  }

  /** Consumed tokens are dead, and each is held by one client or minted once, not both. */
  ghost predicate SingleUse(s: Sys)
  {
    && (forall i | 0 <= i < |s.minted| :: s.minted[i].0 in s.dead)
    && (forall i, k | 0 <= i < k < |s.minted| :: s.minted[i].0 != s.minted[k].0)
    && (forall c | c in s.clients && Holds(s.clients[c]) ::
          s.clients[c].t.jti in s.dead && forall i | 0 <= i < |s.minted| :: s.minted[i].0 != s.clients[c].t.jti)
    && (forall c, d | c in s.clients && d in s.clients && c != d && Holds(s.clients[c]) && Holds(s.clients[d]) ::
          s.clients[c].t.jti != s.clients[d].t.jti)
  }

  /** A timely claim that succeeds consumes a token that was never consumed before. */
  lemma TimelyClaimIsFirst(s: Sys, l: Label)
    requires Recorded(s) && TableIsRecent(s) && Timely(s, l)
    requires l.Claim? && l.client in s.clients && s.clients[l.client].Loaded?
    ensures s.clients[l.client].t.jti in s.db.revoked <==> s.clients[l.client].t.jti in s.dead
  {
  }

  lemma ClaimKeepsSingleUse(s: Sys, c: int, t: Token)
    requires SingleUse(s) && c in s.clients && s.clients[c] == Loaded(t) && t.jti !in s.dead
    ensures SingleUse(Moved(Kill(s, t), c, Claimed(t)))
  {
  }

  lemma MintKeepsSingleUse(s: Sys, c: int, t: Token)
    requires SingleUse(s) && c in s.clients && s.clients[c] == Signed(t)
    ensures SingleUse(Minted(s, c, t))
  {
  }

  /** A claim that consumes a token, or the signing of the refresh token for it. */
  predicate Decisive(s: Sys, l: Label)
  {
    (l.Claim? && l.client in s.clients && s.clients[l.client].Loaded? && s.clients[l.client].t.jti !in s.db.revoked)
    || (l.SignRefresh? && l.client in s.clients && s.clients[l.client].Signed?)
  }

  lemma OtherStepsKeepHolders(s: Sys, l: Label)
    requires !Decisive(s, l)
    ensures Step(s, l).minted == s.minted && s.dead.Keys <= Step(s, l).dead.Keys
    ensures forall c | c in Step(s, l).clients && Holds(Step(s, l).clients[c]) ::
              c in s.clients && Holds(s.clients[c]) && Step(s, l).clients[c].t == s.clients[c].t
  {
  }

  lemma StepKeepsSingleUse(s: Sys, l: Label)
    requires Recorded(s) && TableIsRecent(s) && SingleUse(s) && Timely(s, l)
    ensures SingleUse(Step(s, l))
  {
    if !Decisive(s, l) {
      OtherStepsKeepHolders(s, l);
    } else if l.Claim? {
      TimelyClaimIsFirst(s, l);
      ClaimKeepsSingleUse(s, l.client, s.clients[l.client].t);
    } else {
      MintKeepsSingleUse(s, l.client, s.clients[l.client].t);
    }
  }

  lemma {:induction false} TimelyRunsAreSingleUse(start: nat, run: seq<Label>)
    requires TimelyRun(start, run)
    ensures SingleUse(Run(Start(start), run))
  {
    if run != [] {
      var front := run[..|run| - 1];
      TimelyRunsAreSingleUse(start, front);
      RunKeepsTable(start, front);
      StepKeepsSingleUse(Run(Start(start), front), run[|run| - 1]);
    }
  }

  /** Every interleaving of presenters, logins, logouts, collections and clock ticks mints
      at most one pair per refresh token, when claims are timely. */
  lemma {:induction false} AtMostOnePairPerToken(start: nat, run: seq<Label>, i: nat, k: nat)
    requires TimelyRun(start, run)
    requires i < |Run(Start(start), run).minted| && k < |Run(Start(start), run).minted|
    requires Run(Start(start), run).minted[i].0 == Run(Start(start), run).minted[k].0
    ensures i == k
  {
    TimelyRunsAreSingleUse(start, run);
  }

  // ---------- Refresh tokens never outnumber logins ----------

  ghost function Unconsumed(s: Sys, user: int): set<nat>
  {
    set j | j in s.issued && s.issued[j].user == user && s.issued[j].audience == Refresh && j !in s.dead
  }

  ghost function Holders(s: Sys, user: int): set<int>
  {
    set c | c in s.clients && Holds(s.clients[c]) && s.clients[c].t.user == user
  }

  ghost predicate Balanced(s: Sys, user: int)
  {
    |Unconsumed(s, user)| + |Holders(s, user)| <= Logins(s, user)
  }

  lemma SubsetCard<T>(a: set<T>, b: set<T>)
    requires a <= b
    ensures |a| <= |b|
  {
    if a != {} {
      var x :| x in a;
      SubsetCard(a - {x}, b - {x});
    }
  }

  /** The new counts are covered by two sets no larger in all than the new login count. */
  lemma CoveredIsBalanced(n: Sys, user: int, tokens: set<nat>, clients: set<int>)
    requires Unconsumed(n, user) <= tokens && Holders(n, user) <= clients
    requires |tokens| + |clients| <= Logins(n, user)
    ensures Balanced(n, user)
  {
    SubsetCard(Unconsumed(n, user), tokens);
    SubsetCard(Holders(n, user), clients);
  }

  lemma IssueAddsAtMostOne(s: Sys, u: int, audience: Audience, user: int)
    requires Recorded(s)
    ensures Recorded(Issue(s, u, audience))
    ensures Unconsumed(Issue(s, u, audience), user)
         <= Unconsumed(s, user) + (if u == user && audience == Refresh then {s.nextJti} else {})
    ensures Holders(Issue(s, u, audience), user) == Holders(s, user)
  {
  }

  lemma LoginKeepsBalance(s: Sys, u: int, user: int)
    requires Recorded(s) && Balanced(s, user) && u in s.db.accounts
    ensures Balanced(Step(s, Login(u)), user)
  {
    var a := Issue(s, u, Access);
    var b := Issue(a, u, Refresh);
    var n := Step(s, Login(u));
    IssueAddsAtMostOne(s, u, Access, user);
    IssueAddsAtMostOne(a, u, Refresh, user);
    assert Unconsumed(n, user) == Unconsumed(b, user) && Holders(n, user) == Holders(b, user);
    CoveredIsBalanced(n, user, Unconsumed(s, user) + (if u == user then {a.nextJti} else {}), Holders(s, user));
  }

  lemma SignKeepsBalance(s: Sys, n: Sys, c: int, user: int)
    requires Recorded(s) && TableIsRecent(s) && Balanced(s, user) && c in s.clients && s.clients[c].Signed?
    requires n == Minted(s, c, s.clients[c].t)
    ensures Balanced(n, user)
  {
    var mine := s.clients[c].t.user == user;
    assert forall j | j in n.issued :: j in s.issued || j == s.nextJti;
    assert forall j | j in s.issued :: n.issued[j] == s.issued[j];
    assert mine ==> c in Holders(s, user);
    CoveredIsBalanced(n, user, Unconsumed(s, user) + (if mine then {s.nextJti} else {}),
                      Holders(s, user) - (if mine then {c} else {}));
  }

  lemma ClaimKeepsBalance(s: Sys, n: Sys, c: int, user: int)
    requires Recorded(s) && TableIsRecent(s) && Balanced(s, user) && Timely(s, Claim(c))
    requires c in s.clients && s.clients[c].Loaded? && s.clients[c].t.jti !in s.db.revoked
    requires n == Moved(Kill(s, s.clients[c].t), c, Claimed(s.clients[c].t))
    ensures Balanced(n, user)
  {
    var t := s.clients[c].t;
    var mine := t.user == user;
    TimelyClaimIsFirst(s, Claim(c));
    assert n.issued == s.issued && n.dead == s.dead[t.jti := t.exp];
    assert mine ==> t.jti in Unconsumed(s, user);
    CoveredIsBalanced(n, user, Unconsumed(s, user) - (if mine then {t.jti} else {}),
                      Holders(s, user) + (if mine then {c} else {}));
  }

  lemma OtherStepsDoNotAdd(s: Sys, l: Label, user: int)
    requires !l.Login? && !Decisive(s, l) && Recorded(s)
    ensures Unconsumed(Step(s, l), user) <= Unconsumed(s, user)
    ensures Holders(Step(s, l), user) <= Holders(s, user)
    ensures Logins(Step(s, l), user) == Logins(s, user)
  {
  }

  lemma StepKeepsBalance(s: Sys, l: Label, user: int)
    requires Recorded(s) && TableIsRecent(s) && Timely(s, l) && Balanced(s, user)
    ensures Balanced(Step(s, l), user)
  {
    if l.Login? {
      if l.user in s.db.accounts { LoginKeepsBalance(s, l.user, user); }
    } else if !Decisive(s, l) {
      OtherStepsDoNotAdd(s, l, user);
      CoveredIsBalanced(Step(s, l), user, Unconsumed(s, user), Holders(s, user));
    } else if l.Claim? {
      ClaimKeepsBalance(s, Step(s, l), l.client, user);
    } else {
      SignKeepsBalance(s, Step(s, l), l.client, user);
    }
  }

  /** In every timely run a user's unconsumed refresh tokens never outnumber its logins. */
  lemma {:induction false} SessionsNeverOutnumberLogins(start: nat, run: seq<Label>, user: int)
    requires TimelyRun(start, run)
    ensures Balanced(Run(Start(start), run), user)
    ensures |Unconsumed(Run(Start(start), run), user)| <= Logins(Run(Start(start), run), user)
  {
    if run == [] {
      assert Unconsumed(Start(start), user) == {} && Holders(Start(start), user) == {};
    } else {
      var front := run[..|run| - 1];
      SessionsNeverOutnumberLogins(start, front, user);
      RunKeepsTable(start, front);
      StepKeepsBalance(Run(Start(start), front), run[|run| - 1], user);
    }
  }
}
