// When a superseded token stays superseded: stamps are computed before they are written, so
// a late write can lower one.
module SessionStamps {
  import opened Common
  import opened Sessions
  import opened SessionRuns
  import opened SessionRequests

  /** The account and the stamp a step writes to it. */
  function StampWritten(s: Sys, l: Label): Option<(int, int)>
  {
    match l
    case ChangePassword(user) => if user in s.db.accounts then Some((user, Unix(s.now))) else None
    case Invalidate(c) =>
      if c in s.clients && s.clients[c].Stamping? && s.clients[c].t.user in s.db.accounts
      then Some((s.clients[c].t.user, s.clients[c].stamp)) else None
    case _ => None
  }

  /** An issued token that its account's stamp supersedes. */
  predicate Outdated(s: Sys, j: nat)
  {
    j in s.issued && s.issued[j].user in s.db.accounts && IsSuperseded(s.db.accounts[s.issued[j].user], s.issued[j])
  }

  /** The stamp written reaches back to a token issued before the stamp it overwrites. */
  ghost predicate Revives(s: Sys, l: Label)
  {
    StampWritten(s, l).Some?
    && exists j :: j in s.issued && RevivedBy(s, StampWritten(s, l).value, j)
  }

  predicate RevivedBy(s: Sys, written: (int, int), j: nat)
    requires written.0 in s.db.accounts && j in s.issued
  {
    s.issued[j].user == written.0 && written.1 <= s.issued[j].iat < s.db.accounts[written.0].validAfter
  }

  /** Tokens are issued after the epoch. */
  predicate IssuedOk(s: Sys)
  {
    s.now >= 0 && forall j | j in s.issued :: j < s.nextJti && s.issued[j].iat >= 0
  }

  lemma StepKeepsIssued(s: Sys, l: Label)
    requires IssuedOk(s)
    ensures IssuedOk(Step(s, l))
  {
  }

  lemma StampsStay(s: Sys, l: Label)
    requires IssuedOk(s)
    ensures forall j | j in s.issued :: j in Step(s, l).issued && Step(s, l).issued[j] == s.issued[j]
    ensures forall u | u in s.db.accounts ::
              u in Step(s, l).db.accounts
              && Step(s, l).db.accounts[u].validAfter
                 == if StampWritten(s, l).Some? && StampWritten(s, l).value.0 == u then StampWritten(s, l).value.1
                    else s.db.accounts[u].validAfter
  {
  }

  ghost predicate KeepsOutdated(s: Sys, n: Sys)
  {
    forall j | Outdated(s, j) :: Outdated(n, j)
  }

  /** One step brings a superseded token back exactly when it revives one. */
  lemma RevivingStep(s: Sys, l: Label)
    requires IssuedOk(s)
    ensures KeepsOutdated(s, Step(s, l)) <==> !Revives(s, l)
  {
    StampsStay(s, l);
    if Revives(s, l) {
      var j :| j in s.issued && RevivedBy(s, StampWritten(s, l).value, j);
      assert Outdated(s, j) && !Outdated(Step(s, l), j);
    } else {
      forall j | Outdated(s, j) ensures Outdated(Step(s, l), j) {
        assert StampWritten(s, l).Some? ==> !RevivedBy(s, StampWritten(s, l).value, j);
      }
    }
  }

  function At(start: nat, run: seq<Label>, n: nat): Sys
    requires n <= |run|
  {
    Run(Start(start), run[..n])
  }

  lemma AtNext(start: nat, run: seq<Label>, n: nat)
    requires n < |run|
    ensures At(start, run, n + 1) == Step(At(start, run, n), run[n])
  {
    assert run[..n + 1][..n] == run[..n];
  }

  lemma {:induction false} AtIsOk(start: nat, run: seq<Label>, n: nat)
    requires n <= |run|
    ensures IssuedOk(At(start, run, n))
  {
    if n > 0 {
      AtIsOk(start, run, n - 1);
      AtNext(start, run, n - 1);
      StepKeepsIssued(At(start, run, n - 1), run[n - 1]);
    }
  }

  /** Once superseded, a token stays so to the end of the run. */
  ghost predicate SupersededForGood(start: nat, run: seq<Label>)
  {
    forall n, m, j | 0 <= n <= m <= |run| && Outdated(At(start, run, n), j) :: Outdated(At(start, run, m), j)
  }

  ghost predicate NeverRevives(start: nat, run: seq<Label>)
  {
    forall n | 0 <= n < |run| :: !Revives(At(start, run, n), run[n])
  }

  lemma StaysOutdated(start: nat, run: seq<Label>, n: nat)
    requires n < |run| && !Revives(At(start, run, n), run[n])
    ensures KeepsOutdated(At(start, run, n), At(start, run, n + 1))
  {
    AtNext(start, run, n);
    AtIsOk(start, run, n);
    RevivingStep(At(start, run, n), run[n]);
  }

  lemma {:induction false} OutdatedUpTo(start: nat, run: seq<Label>, n: nat, m: nat, j: nat)
    requires NeverRevives(start, run) && n <= m <= |run| && Outdated(At(start, run, n), j)
    ensures Outdated(At(start, run, m), j)
    decreases m
  {
    if n < m {
      OutdatedUpTo(start, run, n, m - 1, j);
      StaysOutdated(start, run, m - 1);
    }
  }

  lemma OutdatedAround(start: nat, run: seq<Label>, n: nat)
    requires SupersededForGood(start, run) && n < |run|
    ensures !Revives(At(start, run, n), run[n])
  {
    AtNext(start, run, n);
    AtIsOk(start, run, n);
    assert KeepsOutdated(At(start, run, n), At(start, run, n + 1));
    RevivingStep(At(start, run, n), run[n]);
  }

  /** In any interleaving, on a clock that does not go back, superseded tokens stay superseded
      exactly when no stamp is written that reaches back to a token issued before the stamp it
      overwrites. */
  lemma SupersededForGoodExactly(start: nat, run: seq<Label>)
    ensures SupersededForGood(start, run) <==> NeverRevives(start, run)
  {
    if NeverRevives(start, run) {
      forall n, m, j | 0 <= n <= m <= |run| && Outdated(At(start, run, n), j)
        ensures Outdated(At(start, run, m), j)
      {
        OutdatedUpTo(start, run, n, m, j);
      }
    }
    if SupersededForGood(start, run) {
      forall n | 0 <= n < |run| ensures !Revives(At(start, run, n), run[n]) {
        OutdatedAround(start, run, n);
      }
    }
  }

  // ---------- A late stamp ----------

  /** Two clients present one refresh token, and the second computes its replay stamp. Before
      it writes it the user logs in again, and then changes the password. */
  function Meanwhile(): seq<Label>
  {
    [Claim(1), Claim(2), ReadStamp(2)] + ([Tick(NANOS), Login(1)] + [Tick(NANOS), ChangePassword(1)])
  }

  function LateStamp(): seq<Label>
  {
    Opening() + Meanwhile() + [Invalidate(2)]
  }

  lemma ReplayComputes(s: Sys)
    requires s.now == REFRESH_TTL * NANOS - 1 && s.db.revoked == map[]
    requires s.clients == map[1 := Loaded(FIRST), 2 := Loaded(FIRST)]
    ensures var n := Steps(s, [Claim(1), Claim(2), ReadStamp(2)]);
            2 in n.clients && n.clients[2] == Stamping(FIRST, REFRESH_TTL - 1)
            && n.now == s.now && n.db.accounts == s.db.accounts && n.nextJti == s.nextJti && n.issued == s.issued
  {
    ThreeSteps(s, Claim(1), Claim(2), ReadStamp(2));
  }

  lemma LoginsThenChanges(s: Sys)
    requires s.now == REFRESH_TTL * NANOS - 1 && s.nextJti == 2 && s.db.accounts == map[1 := Account(0, false)]
    ensures var n := Steps(s, [Tick(NANOS), Login(1)] + [Tick(NANOS), ChangePassword(1)]);
            n.clients == s.clients && n.db.accounts == map[1 := Account(REFRESH_TTL + 1, false)]
            && 3 in n.issued && n.issued[3].user == 1 && n.issued[3].iat == REFRESH_TTL
  {
    StepsConcat(s, [Tick(NANOS), Login(1)], [Tick(NANOS), ChangePassword(1)]);
    TwoSteps(s, Tick(NANOS), Login(1));
    TwoSteps(Steps(s, [Tick(NANOS), Login(1)]), Tick(NANOS), ChangePassword(1));
  }

  lemma LateWrite(s: Sys)
    requires 2 in s.clients && s.clients[2] == Stamping(FIRST, REFRESH_TTL - 1)
    requires s.db.accounts == map[1 := Account(REFRESH_TTL + 1, false)]
    requires 3 in s.issued && s.issued[3].user == 1 && s.issued[3].iat == REFRESH_TTL
    ensures Outdated(s, 3) && !Outdated(Step(s, Invalidate(2)), 3)
  {
  }

  lemma MeanwhileSteps(s: Sys)
    requires s.now == REFRESH_TTL * NANOS - 1 && s.db.revoked == map[] && s.nextJti == 2
    requires s.clients == map[1 := Loaded(FIRST), 2 := Loaded(FIRST)] && s.db.accounts == map[1 := Account(0, false)]
    ensures var n := Steps(s, Meanwhile()); Outdated(n, 3) && !Outdated(Step(n, Invalidate(2)), 3)
  {
    var replay := [Claim(1), Claim(2), ReadStamp(2)];
    StepsConcat(s, replay, [Tick(NANOS), Login(1)] + [Tick(NANOS), ChangePassword(1)]);
    ReplayComputes(s);
    LoginsThenChanges(Steps(s, replay));
    LateWrite(Steps(s, Meanwhile()));
  }

  /** A concrete run: the replay's stamp, written after the password change, brings the session
      back that the change had ended. */
  lemma LateStampRevives()
    ensures !SupersededForGood(0, LateStamp())
  {
    var front := Opening() + Meanwhile();
    BothLoaded();
    StepsConcat(Start(0), Opening(), Meanwhile());
    MeanwhileSteps(Steps(Start(0), Opening()));
    StepsIsRun(Start(0), front);
    assert LateStamp()[..|front|] == front && LateStamp()[|front|] == Invalidate(2);
    assert At(0, LateStamp(), |front|) == Steps(Start(0), front);
    AtNext(0, LateStamp(), |front|);
    assert |LateStamp()| == |front| + 1;
  }
}
