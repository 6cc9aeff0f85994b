// When a token passes, in the fields of the token and its account and in the labels of the
// run: what suspensions, logouts, password changes, replays and time do to it.
module SessionVerdicts {
  import opened Sessions
  import opened SessionRuns

  /** What the last suspension or lifting that found the account left. */
  function LastSuspended(start: nat, run: seq<Label>, user: int): bool
  {
    if run == [] then false
    else
      var front, l := run[..|run| - 1], run[|run| - 1];
      if l.Suspend? && l.user == user && user in Run(Start(start), front).db.accounts then l.suspended
      else LastSuspended(start, front, user)
  }

  /** Tokens belong to accounts, and live 15 minutes or 7 days from the second they were
      issued in. */
  ghost predicate Dated(s: Sys)
  {
    s.now >= 0
    && forall j | j in s.issued ::
         s.issued[j].user in s.db.accounts && 0 <= s.issued[j].iat <= Unix(s.now)
         && s.issued[j].exp == s.issued[j].iat + if s.issued[j].audience.Access? then 900 else 604_800
  }

  lemma SignsDated(user: int, audience: Audience, now: int, jti: nat)
    ensures Sign(user, audience, now, jti)
         == Token(jti, user, audience, Unix(now), Unix(now) + if audience.Access? then 900 else 604_800)
  {
  }

  lemma AccountsStay(s: Sys, l: Label)
    ensures s.db.accounts.Keys <= Step(s, l).db.accounts.Keys && s.now <= Step(s, l).now
  {
  }

  /** A step issues tokens only at a login of an existing account, a pair of them, and one at
      each signing of a presenter that consumed its token; all of them for that account, dated
      now. */
  lemma IssuesExactly(s: Sys, l: Label)
    requires Recorded(s)
    ensures Step(s, l).issued ==
      if l.Login? && l.user in s.db.accounts then
        s.issued[s.nextJti := Token(s.nextJti, l.user, Access, Unix(s.now), Unix(s.now) + 900)]
                [s.nextJti + 1 := Token(s.nextJti + 1, l.user, Refresh, Unix(s.now), Unix(s.now) + 604_800)]
      else if l.SignAccess? && l.client in s.clients && s.clients[l.client].Claimed? then
        s.issued[s.nextJti := Token(s.nextJti, s.clients[l.client].t.user, Access, Unix(s.now), Unix(s.now) + 900)]
      else if l.SignRefresh? && l.client in s.clients && s.clients[l.client].Signed? then
        s.issued[s.nextJti :=
          Token(s.nextJti, s.clients[l.client].t.user, Refresh, Unix(s.now), Unix(s.now) + 604_800)]
      else s.issued
  {
  }

  lemma StepKeepsDated(s: Sys, l: Label)
    requires Recorded(s) && Dated(s)
    ensures Dated(Step(s, l))
  {
    IssuesExactly(s, l);
    AccountsStay(s, l);
  }

  lemma {:induction false} RunIsDated(start: nat, run: seq<Label>)
    ensures Dated(Run(Start(start), run))
  {
    if run != [] {
      RunIsDated(start, run[..|run| - 1]);
      RunKeepsTable(start, run[..|run| - 1]);
      StepKeepsDated(Run(Start(start), run[..|run| - 1]), run[|run| - 1]);
    }
  }

  lemma StandingSteps(s: Sys, l: Label, user: int)
    ensures user in Step(s, l).db.accounts ==>
              Step(s, l).db.accounts[user].suspended
              == if user !in s.db.accounts then false
                 else if l.Suspend? && l.user == user then l.suspended
                 else s.db.accounts[user].suspended
  {
  }

  lemma {:induction false} StandingIsLast(start: nat, run: seq<Label>, user: int)
    ensures user in Run(Start(start), run).db.accounts ==>
              (Run(Start(start), run).db.accounts[user].suspended <==> LastSuspended(start, run, user))
    ensures user !in Run(Start(start), run).db.accounts ==> !LastSuspended(start, run, user)
  {
    if run != [] {
      StandingIsLast(start, run[..|run| - 1], user);
      StandingSteps(Run(Start(start), run[..|run| - 1]), run[|run| - 1], user);
      AccountsStay(Run(Start(start), run[..|run| - 1]), run[|run| - 1]);
    }
  }

  /** The account's stamp, if it has one, is later than the token. */
  predicate Stamped(s: Sys, t: Token)
    requires t.user in s.db.accounts
  {
    s.db.accounts[t.user].validAfter > 0 && t.iat < s.db.accounts[t.user].validAfter
  }

  /** The account checks on an issued token: it passes them exactly when no later stamp and no
      suspension still in force is against it. */
  lemma AccountVerdictExactly(start: nat, run: seq<Label>, jti: nat)
    requires jti in Run(Start(start), run).issued
    ensures var s := Run(Start(start), run); var t := s.issued[jti];
            t.user in s.db.accounts
            && AccountVerdict(s.db.accounts, t)
               == if Stamped(s, t) then Superseded else if LastSuspended(start, run, t.user) then Suspended else Pass
  {
    RunIsDated(start, run);
    StandingIsLast(start, run, Run(Start(start), run).issued[jti].user);
  }

  /** In every run a bearer token passes exactly when it is an access token, less than 15 minutes
      old by the second it was issued in, never logged out, not older than its account's stamp,
      and the last suspension of its account has been lifted; and it is answered 403 exactly when
      only that suspension is against it. */
  lemma BearerExactly(start: nat, run: seq<Label>, jti: nat)
    requires jti in Run(Start(start), run).issued
    ensures var s := Run(Start(start), run); var t := s.issued[jti];
            var live := t.audience == Access && s.now < (t.iat + 900) * 1_000_000_000;
            var v := AuthVerdict(s.db.accounts, s.db.revoked.Keys, t, s.now);
            t.user in s.db.accounts
            && (v == InvalidToken <==> !live)
            && (v == Revoked <==> live && jti in s.dead)
            && (v == Superseded <==> live && jti !in s.dead && Stamped(s, t))
            && (v == Suspended <==> live && jti !in s.dead && !Stamped(s, t) && LastSuspended(start, run, t.user))
            && (v == Pass <==> live && jti !in s.dead && !Stamped(s, t) && !LastSuspended(start, run, t.user))
  {
    RunIsDated(start, run);
    RunKeepsTable(start, run);
    AccountVerdictExactly(start, run, jti);
    CollectionIsUnobservable(start, run, jti);
  }

  /** The same for a refresh token presented for rotation, for 7 days and until it is consumed. */
  lemma RotationExactly(start: nat, run: seq<Label>, jti: nat)
    requires jti in Run(Start(start), run).issued
    ensures var s := Run(Start(start), run); var t := s.issued[jti];
            var live := t.audience == Refresh && s.now < (t.iat + 604_800) * 1_000_000_000;
            var v := RotationVerdict(s.db.accounts, s.db.revoked.Keys, t, s.now);
            t.user in s.db.accounts
            && (v == InvalidToken <==> !live)
            && (v == Superseded <==> live && Stamped(s, t))
            && (v == Suspended <==> live && !Stamped(s, t) && LastSuspended(start, run, t.user))
            && (v == Reused <==> live && !Stamped(s, t) && !LastSuspended(start, run, t.user) && jti in s.dead)
            && (v == Pass <==> live && !Stamped(s, t) && !LastSuspended(start, run, t.user) && jti !in s.dead)
  {
    RunIsDated(start, run);
    RunKeepsTable(start, run);
    AccountVerdictExactly(start, run, jti);
    CollectionIsUnobservable(start, run, jti);
  }

  /** A presenter starts exactly with an unexpired refresh token, and gets past loading the
      account exactly when no stamp and no suspension still in force is against its token. */
  lemma PresentersExactly(start: nat, run: seq<Label>, c: int, jti: nat)
    ensures var s := Run(Start(start), run); var n := Run(Start(start), run + [Present(c, jti)]);
            c !in s.clients ==>
              (c in n.clients <==> jti in s.issued && s.issued[jti].audience == Refresh
                                   && s.now < (s.issued[jti].iat + 604_800) * 1_000_000_000)
    ensures var s := Run(Start(start), run); var n := Run(Start(start), run + [Load(c)]);
            c in s.clients && s.clients[c].Presented? ==>
              var t := s.clients[c].t;
              t.user in s.db.accounts
              && (c in n.clients <==> !Stamped(s, t) && !LastSuspended(start, run, t.user))
              && (c in n.clients ==> n.clients[c] == Loaded(t))
  {
    var s := Run(Start(start), run);
    RunIsDated(start, run);
    RunKeepsTable(start, run);
    assert (run + [Present(c, jti)])[..|run|] == run && (run + [Load(c)])[..|run|] == run;
    if c in s.clients && s.clients[c].Presented? {
      AccountVerdictExactly(start, run, s.clients[c].t.jti);
    }
  }

  /** A logout with a token that still parses ends it for good, whatever its account's standing. */
  lemma LogoutIsFinal(start: nat, run: seq<Label>, jti: nat, more: seq<Label>)
    requires jti in Run(Start(start), run).issued && Run(Start(start), run).issued[jti].audience == Access
    requires Run(Start(start), run).now < Run(Start(start), run).issued[jti].exp * 1_000_000_000
    ensures var s := Run(Start(start), run + [Logout(jti)] + more);
            jti in s.issued && AuthVerdict(s.db.accounts, s.db.revoked.Keys, s.issued[jti], s.now) != Pass
  {
    var out := run + [Logout(jti)];
    assert out[..|run|] == run;
    RunKeepsTable(start, run);
    StepNeverForgets(Run(Start(start), run), Logout(jti));
    assert jti in Run(Start(start), out).dead;
    RunsNeverForget(start, out, more);
    DeadTokensStayDead(start, out, more, jti);
  }

  /** No token of the user issued before the second passes as bearer or for rotation. */
  ghost predicate EndedBefore(s: Sys, user: int, second: int)
  {
    forall j | j in s.issued && s.issued[j].user == user && s.issued[j].iat < second ::
      AuthVerdict(s.db.accounts, s.db.revoked.Keys, s.issued[j], s.now) != Pass
      && RotationVerdict(s.db.accounts, s.db.revoked.Keys, s.issued[j], s.now) != Pass
  }

  lemma StampEnds(s: Sys, user: int, second: int)
    requires Dated(s) && user in s.db.accounts && s.db.accounts[user].validAfter == second
    ensures EndedBefore(s, user, second)
  {
  }

  /** A password change ends every session of the account from before its second. */
  lemma PasswordChangeEnds(start: nat, run: seq<Label>, user: int)
    requires user in Run(Start(start), run).db.accounts
    ensures EndedBefore(Run(Start(start), run + [ChangePassword(user)]), user, Unix(Run(Start(start), run).now))
  {
    assert (run + [ChangePassword(user)])[..|run|] == run;
    RunIsDated(start, run + [ChangePassword(user)]);
    StampEnds(Run(Start(start), run + [ChangePassword(user)]), user, Unix(Run(Start(start), run).now));
  }

  /** So does a replay, and it ends the replayed token and its siblings of the same second too,
      once its stamp, computed from the clock and the token, is written. */
  lemma ReplayEnds(start: nat, run: seq<Label>, c: int, more: seq<Label>)
    requires c in Run(Start(start), run).clients && Run(Start(start), run).clients[c].Replaying?
    requires forall l | l in more :: l.Tick?
    ensures var s := Run(Start(start), run); var n := Run(Start(start), run + [ReadStamp(c)] + more + [Invalidate(c)]);
            var t := s.clients[c].t;
            EndedBefore(n, t.user, Unix(s.now)) && EndedBefore(n, t.user, t.iat + 1)
  {
    var s := Run(Start(start), run);
    var read := run + [ReadStamp(c)];
    var t := s.clients[c].t;
    assert read[..|run|] == run;
    TicksChangeNothing(start, read, more);
    var all := read + more + [Invalidate(c)];
    assert all[..|read + more|] == read + more;
    var w := Run(Start(start), read + more);
    assert w.clients[c] == Stamping(t, ReplayStamp(t, s.now));
    RunIsDated(start, run);
    RunKeepsTable(start, run);
    RunIsDated(start, all);
    StampEnds(Run(Start(start), all), t.user, ReplayStamp(t, s.now));
  }

  lemma {:induction false} TicksChangeNothing(start: nat, run: seq<Label>, ticks: seq<Label>)
    requires forall l | l in ticks :: l.Tick?
    ensures Run(Start(start), run + ticks) == Run(Start(start), run).(now := Run(Start(start), run + ticks).now)
  {
    if ticks == [] {
      assert run + ticks == run;
    } else {
      var front := ticks[..|ticks| - 1];
      assert (run + ticks)[..|run + ticks| - 1] == run + front;
      TicksChangeNothing(start, run, front);
    }
  }

  /** After a collection the table holds exactly the dead tokens whose exp second is not over. */
  lemma CollectorExactly(start: nat, run: seq<Label>, jti: nat)
    ensures var s := Run(Start(start), run); var n := Run(Start(start), run + [Gc]);
            jti in n.db.revoked <==> jti in s.dead && jti in s.issued && s.issued[jti].exp >= Unix(s.now)
  {
    assert (run + [Gc])[..|run|] == run;
    RunKeepsTable(start, run);
  }
}
