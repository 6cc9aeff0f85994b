// When the single-use promise holds: run by run, by what a claim finds in the table, and
// over all runs, by how late claims may be made.
module SessionTiming {
  import opened Sessions
  import opened SessionRuns
  import opened SessionRequests

  // ---------- Run by run ----------

  /** A presenter about to claim its token. */
  predicate Claims(s: Sys, l: Label)
  {
    l.Claim? && l.client in s.clients && s.clients[l.client].Loaded?
  }

  /** The claim inserts its row, and so consumes the token. */
  predicate Consumes(s: Sys, l: Label, jti: nat)
  {
    Claims(s, l) && s.clients[l.client].t.jti == jti && jti !in s.db.revoked
  }

  /** How often a run consumes a token. */
  function Consumptions(start: nat, run: seq<Label>, jti: nat): nat
  {
    if run == [] then 0
    else
      Consumptions(start, run[..|run| - 1], jti)
      + if Consumes(Run(Start(start), run[..|run| - 1]), run[|run| - 1], jti) then 1 else 0
  }

  /** The claim is for a dead token whose row the collector has dropped. */
  predicate Reclaims(s: Sys, l: Label)
  {
    Claims(s, l) && s.clients[l.client].t.jti in s.dead && s.clients[l.client].t.jti !in s.db.revoked
  }

  predicate NeverReclaims(start: nat, run: seq<Label>)
  {
    run == []
    || (NeverReclaims(start, run[..|run| - 1]) && !Reclaims(Run(Start(start), run[..|run| - 1]), run[|run| - 1]))
  }

  lemma StepKillsConsumed(s: Sys, l: Label, j: nat)
    requires Recorded(s) && j in Step(s, l).issued && Step(s, l).issued[j].audience == Refresh
    ensures j in s.issued ==> s.issued[j] == Step(s, l).issued[j]
    ensures j in Step(s, l).dead <==> j in s.dead || Consumes(s, l, j)
  {
  }

  lemma NewIsUnconsumed(s: Sys, l: Label, j: nat)
    requires Recorded(s) && j !in s.issued
    ensures !Consumes(s, l, j)
  {
  }

  lemma {:induction false} UnissuedIsUnconsumed(start: nat, run: seq<Label>, j: nat)
    requires j !in Run(Start(start), run).issued
    ensures Consumptions(start, run, j) == 0
  {
    if run != [] {
      var front := run[..|run| - 1];
      RunKeepsTable(start, front);
      StepNeverForgets(Run(Start(start), front), run[|run| - 1]);
      UnissuedIsUnconsumed(start, front, j);
      NewIsUnconsumed(Run(Start(start), front), run[|run| - 1], j);
    }
  }

  /** In every run a refresh token is dead exactly when it has been consumed. */
  lemma {:induction false} DeadIsConsumed(start: nat, run: seq<Label>, j: nat)
    requires j in Run(Start(start), run).issued && Run(Start(start), run).issued[j].audience == Refresh
    ensures j in Run(Start(start), run).dead <==> Consumptions(start, run, j) > 0
  {
    if run != [] {
      var front, l := run[..|run| - 1], run[|run| - 1];
      var s := Run(Start(start), front);
      RunKeepsTable(start, front);
      StepKillsConsumed(s, l, j);
      if j in s.issued {
        DeadIsConsumed(start, front, j);
      } else {
        UnissuedIsUnconsumed(start, front, j);
        DeadIsIssued(start, front);
      }
    }
  }

  lemma DeadIsIssued(start: nat, run: seq<Label>)
    ensures Run(Start(start), run).dead.Keys <= Run(Start(start), run).issued.Keys
  {
    RunKeepsTable(start, run);
  }

  ghost predicate ConsumedOnce(start: nat, run: seq<Label>)
  {
    forall j: nat :: Consumptions(start, run, j) <= 1
  }

  /** A claim that finds its token alive consumes it for the first time; a reclaim consumes
      it again; any other claim consumes nothing. */
  lemma ClaimCounts(start: nat, front: seq<Label>, l: Label, j: nat)
    ensures var s := Run(Start(start), front);
            Consumes(s, l, j) ==> (Reclaims(s, l) <==> Consumptions(start, front, j) > 0)
  {
    var s := Run(Start(start), front);
    if Consumes(s, l, j) {
      RunKeepsTable(start, front);
      DeadIsConsumed(start, front, j);
    }
  }

  /** In every run, whatever the clock does to its claims, every token is consumed at most
      once exactly when no claim is made for a dead token whose row is collected. */
  lemma {:induction false} ConsumedOnceExactly(start: nat, run: seq<Label>)
    ensures ConsumedOnce(start, run) <==> NeverReclaims(start, run)
  {
    if run != [] {
      var front, l := run[..|run| - 1], run[|run| - 1];
      var s := Run(Start(start), front);
      ConsumedOnceExactly(start, front);
      forall j: nat ensures Consumes(s, l, j) ==> (Reclaims(s, l) <==> Consumptions(start, front, j) > 0) {
        ClaimCounts(start, front, l, j);
      }
      if Reclaims(s, l) {
        var j := s.clients[l.client].t.jti;
        assert Consumes(s, l, j) && Consumptions(start, run, j) > 1;
      }
      if ConsumedOnce(start, run) {
        forall j: nat ensures Consumptions(start, front, j) <= 1 {
          assert Consumptions(start, run, j) <= 1;
        }
      }
      if NeverReclaims(start, run) {
        forall j: nat ensures Consumptions(start, run, j) <= 1 {
          assert Consumptions(start, front, j) <= 1;
        }
      }
    }
  }

  /** A reclaim comes only after the second the token expires in. */
  lemma ReclaimsAreLate(s: Sys, l: Label)
    requires Recorded(s) && TableIsRecent(s) && Reclaims(s, l)
    ensures !Timely(s, l)
  {
  }

  // ---------- Over all runs ----------

  /** A claim is made at most this many seconds after the second its token expires in. */
  predicate ClaimsBy(s: Sys, l: Label, late: nat)
  {
    Claims(s, l) ==> Unix(s.now) <= s.clients[l.client].t.exp + late
  }

  predicate LateRun(start: nat, run: seq<Label>, late: nat)
  {
    run == []
    || (LateRun(start, run[..|run| - 1], late) && ClaimsBy(Run(Start(start), run[..|run| - 1]), run[|run| - 1], late))
  }

  lemma {:induction false} NotLateIsTimely(start: nat, run: seq<Label>)
    ensures LateRun(start, run, 0) <==> TimelyRun(start, run)
  {
    if run != [] {
      NotLateIsTimely(start, run[..|run| - 1]);
    }
  }

  /** The same from the first label on, as the late run is played. */
  predicate LateSteps(s: Sys, labels: seq<Label>, late: nat)
    decreases |labels|
  {
    labels == [] || (ClaimsBy(s, labels[0], late) && LateSteps(Step(s, labels[0]), labels[1..], late))
  }

  lemma {:induction false} LateStepsConcat(s: Sys, a: seq<Label>, b: seq<Label>, late: nat)
    ensures LateSteps(s, a + b, late) <==> LateSteps(s, a, late) && LateSteps(Steps(s, a), b, late)
    decreases |a|
  {
    if a == [] {
      assert a + b == b;
    } else {
      assert (a + b)[1..] == a[1..] + b;
      LateStepsConcat(Step(s, a[0]), a[1..], b, late);
    }
  }

  lemma {:induction false} LateStepsIsLateRun(start: nat, run: seq<Label>, late: nat)
    ensures LateSteps(Start(start), run, late) <==> LateRun(start, run, late)
  {
    if run != [] {
      var front, last := run[..|run| - 1], run[|run| - 1];
      assert front + [last] == run && [last][1..] == [];
      LateStepsConcat(Start(start), front, [last], late);
      LateStepsIsLateRun(start, front, late);
      StepsIsRun(Start(start), front);
    }
  }

  lemma {:induction false} NoClaimIsNotLate(s: Sys, labels: seq<Label>, late: nat)
    requires forall l | l in labels :: !l.Claim?
    ensures LateSteps(s, labels, late)
    decreases |labels|
  {
    if labels != [] {
      NoClaimIsNotLate(Step(s, labels[0]), labels[1..], late);
    }
  }

  /** One claim, and then labels without any. */
  lemma ClaimFirst(s: Sys, claim: Label, rest: seq<Label>, late: nat)
    requires ClaimsBy(s, claim, late) && forall l | l in rest :: !l.Claim?
    ensures LateSteps(s, [claim] + rest, late)
  {
    assert ([claim] + rest)[1..] == rest;
    NoClaimIsNotLate(Step(s, claim), rest, late);
  }

  lemma SecondClaimIsLateByOne(s: Sys, late: nat)
    requires late >= 1 && s.now == REFRESH_TTL * NANOS - 1 && s.db.revoked == map[FIRST.jti := FIRST.exp]
    requires 2 in s.clients && s.clients[2] == Loaded(FIRST)
    ensures LateSteps(s, [Tick(2 * NANOS), Gc] + [Claim(2), SignAccess(2), SignRefresh(2)], late)
  {
    var wait, sign := [Tick(2 * NANOS), Gc], [SignAccess(2), SignRefresh(2)];
    NoClaimIsNotLate(s, wait, late);
    TwoSteps(s, Tick(2 * NANOS), Gc);
    assert Unix(s.now + 2 * NANOS) == FIRST.exp + 1;
    ClaimFirst(Steps(s, wait), Claim(2), sign, late);
    assert [Claim(2)] + sign == [Claim(2), SignAccess(2), SignRefresh(2)];
    LateStepsConcat(s, wait, [Claim(2)] + sign, late);
  }

  lemma ClosingIsLateByOne(s: Sys, late: nat)
    requires late >= 1 && s.now == REFRESH_TTL * NANOS - 1 && s.db.revoked == map[]
    requires s.clients == map[1 := Loaded(FIRST), 2 := Loaded(FIRST)]
    ensures LateSteps(s, Closing(), late)
  {
    var first := [Claim(1), SignAccess(1), SignRefresh(1)];
    var second := [Tick(2 * NANOS), Gc] + [Claim(2), SignAccess(2), SignRefresh(2)];
    ClaimThenSign(s, 1, FIRST);
    ClaimFirst(s, Claim(1), [SignAccess(1), SignRefresh(1)], late);
    assert [Claim(1)] + [SignAccess(1), SignRefresh(1)] == first;
    SecondClaimIsLateByOne(Steps(s, first), late);
    LateStepsConcat(s, first, second, late);
    assert first + second == Closing();
  }

  /** The run that mints twice makes its second claim one second late. */
  lemma LateClaimIsLateByOne(late: nat)
    requires late >= 1
    ensures LateRun(0, LateClaim(), late)
  {
    BothLoaded();
    NoClaimIsNotLate(Start(0), Opening(), late);
    ClosingIsLateByOne(Steps(Start(0), Opening()), late);
    LateStepsConcat(Start(0), Opening(), Closing(), late);
    LateStepsIsLateRun(0, LateClaim(), late);
  }

  ghost predicate MintsOnce(s: Sys)
  {
    forall i, k | 0 <= i < |s.minted| && 0 <= k < |s.minted| && s.minted[i].0 == s.minted[k].0 :: i == k
  }

  /** Every run whose claims are at most so late mints at most one pair per token. */
  ghost predicate SingleUseUpTo(late: nat)
  {
    forall start: nat, run | LateRun(start, run, late) :: MintsOnce(Run(Start(start), run))
  }

  /** Single use survives exactly no lateness: it holds over all runs when claims are made by
      the second of expiry, and already fails when they may be one second later. */
  lemma SingleUseExactly(late: nat)
    ensures SingleUseUpTo(late) <==> late == 0
  {
    if late == 0 {
      forall start: nat, run | LateRun(start, run, late) ensures MintsOnce(Run(Start(start), run)) {
        NotLateIsTimely(start, run);
        TimelyRunsAreSingleUse(start, run);
      }
    } else {
      LateClaimIsLateByOne(late);
      LateClaimMintsTwice();
      assert !MintsOnce(Run(Start(0), LateClaim()));
    }
  }

  ghost predicate LoginsCover(s: Sys)
  {
    forall user :: |Unconsumed(s, user)| <= Logins(s, user)
  }

  /** In every run whose claims are at most so late refresh tokens never outnumber logins. */
  ghost predicate CoveredUpTo(late: nat)
  {
    forall start: nat, run | LateRun(start, run, late) :: LoginsCover(Run(Start(start), run))
  }

  /** What a consumed token leaves of the history: one more refresh token of its user. */
  ghost predicate LeavesOne(s: Sys, n: Sys, t: Token)
  {
    n.nextJti == s.nextJti + 2 && n.dead == s.dead[t.jti := t.exp] && n.logins == s.logins
    && s.nextJti + 1 in n.issued && n.issued[s.nextJti + 1].user == t.user
      && n.issued[s.nextJti + 1].audience == Refresh
    && forall j | j in s.issued && j < s.nextJti :: j in n.issued && n.issued[j] == s.issued[j]
  }

  lemma ConsumedLeavesOne(s: Sys, c: int, t: Token)
    ensures LeavesOne(s, Consumed(s, c, t), t)
  {
  }

  lemma WaitLeavesNothing(s: Sys)
    ensures var n := Steps(s, [Tick(2 * NANOS), Gc]);
            n.nextJti == s.nextJti && n.dead == s.dead && n.logins == s.logins && n.issued == s.issued
  {
    TwoSteps(s, Tick(2 * NANOS), Gc);
  }

  lemma TwoLeft(s: Sys, s1: Sys, s2: Sys, n: Sys)
    requires s.nextJti == 2 && s.dead == map[] && LeavesOne(s, s1, FIRST) && LeavesOne(s2, n, FIRST)
    requires s2.nextJti == s1.nextJti && s2.dead == s1.dead && s2.logins == s1.logins && s2.issued == s1.issued
    ensures {3, 5} <= Unconsumed(n, 1) && n.logins == s.logins
  {
  }

  lemma ClosingOutnumbers(s: Sys)
    requires s.now == REFRESH_TTL * NANOS - 1 && s.db.revoked == map[] && s.dead == map[] && s.nextJti == 2
    requires s.clients == map[1 := Loaded(FIRST), 2 := Loaded(FIRST)]
    ensures {3, 5} <= Unconsumed(Steps(s, Closing()), 1) && Steps(s, Closing()).logins == s.logins
  {
    var first, wait := [Claim(1), SignAccess(1), SignRefresh(1)], [Tick(2 * NANOS), Gc];
    var second := [Claim(2), SignAccess(2), SignRefresh(2)];
    StepsConcat(s, first, wait);
    StepsConcat(s, first + wait, second);
    ClaimThenSign(s, 1, FIRST);
    var s1 := Steps(s, first);
    ExpiredAndCollected(s1, FIRST);
    WaitLeavesNothing(s1);
    var s2 := Steps(s1, wait);
    ClaimThenSign(s2, 2, FIRST);
    ConsumedLeavesOne(s, 1, FIRST);
    ConsumedLeavesOne(s2, 2, FIRST);
    TwoLeft(s, s1, s2, Steps(s, Closing()));
  }

  lemma LoginsAfter(s: Sys)
    requires {3, 5} <= Unconsumed(s, 1) && s.logins == map[1 := 1]
    ensures !LoginsCover(s)
  {
    SubsetCard({3, 5}, Unconsumed(s, 1));
    assert |Unconsumed(s, 1)| > Logins(s, 1);
  }

  /** After the late run one login stands against two unconsumed refresh tokens. */
  lemma LateClaimOutnumbers()
    ensures !LoginsCover(Run(Start(0), LateClaim()))
  {
    BothLoaded();
    ClosingOutnumbers(Steps(Start(0), Opening()));
    StepsConcat(Start(0), Opening(), Closing());
    StepsIsRun(Start(0), LateClaim());
    LoginsAfter(Run(Start(0), LateClaim()));
  }

  /** Logins cover refresh tokens exactly without lateness, too. */
  lemma SessionsCoveredExactly(late: nat)
    ensures CoveredUpTo(late) <==> late == 0
  {
    if late == 0 {
      forall start: nat, run | LateRun(start, run, late) ensures LoginsCover(Run(Start(start), run)) {
        NotLateIsTimely(start, run);
        forall user ensures |Unconsumed(Run(Start(start), run), user)| <= Logins(Run(Start(start), run), user) {
          SessionsNeverOutnumberLogins(start, run, user);
        }
      }
    } else {
      LateClaimIsLateByOne(late);
      LateClaimOutnumbers();
    }
  }
}
