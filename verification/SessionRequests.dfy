// Two closing results on sessions: presenters that nobody interrupts behave as the whole
// RotateRefresh and never let a stamp fall, and a late claim shows why the single-use
// promise needs its timing condition.
module SessionRequests {
  import opened Sessions
  import opened SessionRuns

  // ---------- A presenter nobody interrupts ----------

  function Steps(s: Sys, labels: seq<Label>): Sys
    decreases |labels|
  {
    if labels == [] then s else Steps(Step(s, labels[0]), labels[1..])
  }

  lemma {:induction false} StepsConcat(s: Sys, a: seq<Label>, b: seq<Label>)
    ensures Steps(s, a + b) == Steps(Steps(s, a), b)
    decreases |a|
  {
    if a == [] {
      assert a + b == b;
    } else {
      assert (a + b)[1..] == a[1..] + b;
      StepsConcat(Step(s, a[0]), a[1..], b);
    }
  }

  lemma {:induction false} StepsIsRun(s: Sys, labels: seq<Label>)
    ensures Steps(s, labels) == Run(s, labels)
    decreases |labels|
  {
    if labels != [] {
      var front, last := labels[..|labels| - 1], labels[|labels| - 1];
      assert front + [last] == labels;
      StepsConcat(s, front, [last]);
      StepsIsRun(s, front);
    }
  }

  lemma TwoSteps(s: Sys, a: Label, b: Label)
    ensures Steps(s, [a, b]) == Step(Step(s, a), b)
  {
    assert [a, b][1..] == [b] && [b][1..] == [];
    assert Steps(Step(s, a), [b]) == Steps(Step(Step(s, a), b), []);
  }

  lemma ThreeSteps(s: Sys, a: Label, b: Label, c: Label)
    ensures Steps(s, [a, b, c]) == Step(Step(Step(s, a), b), c)
  {
    TwoSteps(Step(s, a), b, c);
    assert [a, b, c][1..] == [b, c];
  }

  /** The tables after a fresh token is consumed and the pair for it is signed. */
  function Consumed(s: Sys, c: int, t: Token): Sys
  {
    Minted(Issue(Kill(s, t), t.user, Access), c, t)
  }

  lemma ClaimThenSign(s: Sys, c: int, t: Token)
    requires c in s.clients && s.clients[c] == Loaded(t) && t.jti !in s.db.revoked
    ensures Steps(s, [Claim(c), SignAccess(c), SignRefresh(c)]) == Consumed(s, c, t)
  {
    ThreeSteps(s, Claim(c), SignAccess(c), SignRefresh(c));
    var s1 := Step(s, Claim(c));
    assert s1 == Moved(Kill(s, t), c, Claimed(t));
    var s2 := Step(s1, SignAccess(c));
    assert s2 == Moved(Issue(Kill(s, t), t.user, Access), c, Signed(t));
    SignFromSigned(s2, Issue(Kill(s, t), t.user, Access), c, t);
  }

  lemma SignFromSigned(s: Sys, before: Sys, c: int, t: Token)
    requires s == Moved(before, c, Signed(t)) && c in before.clients
    ensures Step(s, SignRefresh(c)) == Minted(before, c, t)
  {
    assert Step(s, SignRefresh(c)).clients == Minted(before, c, t).clients;
  }

  lemma ReplayThenInvalidate(s: Sys, c: int, t: Token)
    requires c in s.clients && s.clients[c] == Loaded(t) && t.jti in s.db.revoked
    ensures Steps(s, [Claim(c), ReadStamp(c), Invalidate(c)])
         == Left(s.(db := WithValidAfter(s.db, t.user, ReplayStamp(t, s.now))), c)
  {
    ThreeSteps(s, Claim(c), ReadStamp(c), Invalidate(c));
    var s1 := Step(s, Claim(c));
    assert s1 == Moved(s, c, Replaying(t));
    var s2 := Step(s1, ReadStamp(c));
    assert s2 == Moved(s, c, Stamping(t, ReplayStamp(t, s.now)));
    assert Step(s2, Invalidate(c)).clients == s.clients - {c};
  }

  lemma PresentThenLoad(s: Sys, c: int, jti: nat)
    requires c !in s.clients && jti in s.issued && Parses(s.issued[jti], Refresh, s.now)
    ensures Steps(s, [Present(c, jti), Load(c)])
         == if AccountVerdict(s.db.accounts, s.issued[jti]) == Pass then Moved(s, c, Loaded(s.issued[jti])) else s
  {
    TwoSteps(s, Present(c, jti), Load(c));
    var s1 := Step(s, Present(c, jti));
    assert s1 == Moved(s, c, Presented(s.issued[jti]));
    assert Moved(s1, c, Loaded(s.issued[jti])).clients == Moved(s, c, Loaded(s.issued[jti])).clients;
    assert Left(s1, c).clients == s.clients;
  }

  /** The steps of one presenter from first to last: after its claim it either signs the
      pair or stamps the account. */
  function Presenter(s: Sys, c: int, jti: nat): seq<Label>
  {
    [Present(c, jti), Load(c)] +
    if jti in s.db.revoked then [Claim(c), ReadStamp(c), Invalidate(c)] else [Claim(c), SignAccess(c), SignRefresh(c)]
  }

  /** What RotateRefresh reads when the clock stands still around it. */
  function ReadingsAt(s: Sys): Readings
  {
    Readings(s.now, s.now, s.now, s.now, s.nextJti, s.nextJti + 1)
  }

  lemma NobodyThere(s: Sys, c: int, a: Label, b: Label)
    requires c !in s.clients
    requires (a == ReadStamp(c) && b == Invalidate(c)) || (a == SignAccess(c) && b == SignRefresh(c))
    ensures Steps(s, [Claim(c), a, b]) == s
  {
    ThreeSteps(s, Claim(c), a, b);
  }

  /** n is s after the rotation: the same tables, what was issued, nothing else. */
  predicate Answers(s: Sys, n: Sys, rotation: (Rotation, Tables))
  {
    var (res, db) := rotation;
    n.db == db && n.clients == s.clients && n.now == s.now
    && n.issued == if res.Pair? then s.issued[s.nextJti := res.access][s.nextJti + 1 := res.refresh] else s.issued
  }

  lemma AloneReplaying(s: Sys, c: int, jti: nat)
    requires c !in s.clients && jti in s.issued && s.issued[jti].jti == jti && jti in s.db.revoked
    requires Parses(s.issued[jti], Refresh, s.now)
    ensures Answers(s, Steps(s, Presenter(s, c, jti)), Rotated(s.db, s.issued[jti], ReadingsAt(s)))
  {
    var t := s.issued[jti];
    PresentThenLoad(s, c, jti);
    var s2 := Steps(s, [Present(c, jti), Load(c)]);
    StepsConcat(s, [Present(c, jti), Load(c)], [Claim(c), ReadStamp(c), Invalidate(c)]);
    if AccountVerdict(s.db.accounts, t) == Pass {
      ReplayThenInvalidate(s2, c, t);
    } else {
      NobodyThere(s, c, ReadStamp(c), Invalidate(c));
    }
    assert Steps(s, Presenter(s, c, jti)).clients == s.clients;
  }

  lemma AloneMinting(s: Sys, c: int, jti: nat)
    requires c !in s.clients && jti in s.issued && s.issued[jti].jti == jti && jti !in s.db.revoked
    requires Parses(s.issued[jti], Refresh, s.now)
    ensures Answers(s, Steps(s, Presenter(s, c, jti)), Rotated(s.db, s.issued[jti], ReadingsAt(s)))
  {
    var t := s.issued[jti];
    PresentThenLoad(s, c, jti);
    var s2 := Steps(s, [Present(c, jti), Load(c)]);
    StepsConcat(s, [Present(c, jti), Load(c)], [Claim(c), SignAccess(c), SignRefresh(c)]);
    if AccountVerdict(s.db.accounts, t) == Pass {
      ClaimThenSign(s2, c, t);
    } else {
      NobodyThere(s, c, SignAccess(c), SignRefresh(c));
    }
    assert Steps(s, Presenter(s, c, jti)).clients == s.clients;
  }

  /** The statement-level presenter, left alone, is RotateRefresh: the same tables, and the
      pair it answers with is what it has issued. */
  lemma AloneIsRotated(s: Sys, c: int, jti: nat)
    requires Recorded(s) && c !in s.clients && jti in s.issued
    requires Parses(s.issued[jti], Refresh, s.now)
    ensures Answers(s, Steps(s, Presenter(s, c, jti)), Rotated(s.db, s.issued[jti], ReadingsAt(s)))
  {
    if jti in s.db.revoked {
      AloneReplaying(s, c, jti);
    } else {
      AloneMinting(s, c, jti);
    }
  }

  // ---------- Requests one at a time ----------

  datatype Request =
    | Wait(nanos: nat)
    | SignUp(user: int)
    | SignIn(user: int)
    | SignOut(jti: nat)
    | Collect
    | Lock(user: int, suspended: bool)
    | Rotate(jti: nat)
    | NewPassword(jti: nat)

  /** Requests taken one at a time: a suspended account cannot log in, and a password change
      first passes RequireAuth. */
  function Serve(s: Sys, r: Request): Sys
  {
    match r
    case Wait(nanos) => Step(s, Tick(nanos))
    case SignUp(user) => Step(s, Enrol(user))
    case SignIn(user) => if user in s.db.accounts && s.db.accounts[user].suspended then s else Step(s, Login(user))
    case SignOut(jti) => Step(s, Logout(jti))
    case Collect => Step(s, Gc)
    case Lock(user, b) => Step(s, Suspend(user, b))
    case Rotate(jti) =>
      if jti in s.issued && Parses(s.issued[jti], Refresh, s.now) then Steps(s, Presenter(s, 0, jti)) else s
    case NewPassword(jti) =>
      if jti in s.issued && AuthVerdict(s.db.accounts, s.db.revoked.Keys, s.issued[jti], s.now) == Pass
      then Step(s, ChangePassword(s.issued[jti].user)) else s
  }

  function Served(s: Sys, requests: seq<Request>): Sys
  {
    if requests == [] then s else Serve(Served(s, requests[..|requests| - 1]), requests[|requests| - 1])
  }

  /** Between requests nobody is mid-rotation, and no token was issued in the future. */
  ghost predicate Quiet(s: Sys)
  {
    Recorded(s) && s.clients == map[] && s.now >= 0
    && (forall j | j in s.issued :: 0 <= s.issued[j].iat <= Unix(s.now))
    && (forall u | u in s.db.accounts :: s.db.accounts[u].validAfter >= 0)
  }

  lemma {:induction false} StepsKeepRecorded(s: Sys, labels: seq<Label>)
    requires Recorded(s)
    ensures Recorded(Steps(s, labels))
    decreases |labels|
  {
    if labels != [] {
      StepKeepsRecorded(s, labels[0]);
      StepsKeepRecorded(Step(s, labels[0]), labels[1..]);
    }
  }

  lemma RotateKeepsQuiet(s: Sys, jti: nat)
    requires Quiet(s) && jti in s.issued && Parses(s.issued[jti], Refresh, s.now)
    ensures Quiet(Steps(s, Presenter(s, 0, jti)))
  {
    StepsKeepRecorded(s, Presenter(s, 0, jti));
    AloneIsRotated(s, 0, jti);
  }

  lemma ServeKeepsQuiet(s: Sys, r: Request)
    requires Quiet(s)
    ensures Quiet(Serve(s, r))
  {
    if r.Rotate? {
      if r.jti in s.issued && Parses(s.issued[r.jti], Refresh, s.now) {
        RotateKeepsQuiet(s, r.jti);
      }
    }
  }

  /** Taken one at a time on a clock that does not go back, no request lowers a stamp: a
      password change passed RequireAuth with a token at least as young as the old stamp. */
  lemma ServeKeepsStamps(s: Sys, r: Request, user: int)
    requires Quiet(s) && user in s.db.accounts
    ensures user in Serve(s, r).db.accounts
    ensures s.db.accounts[user].validAfter <= Serve(s, r).db.accounts[user].validAfter
  {
    match r {
      case Rotate(jti) =>
        if jti in s.issued && Parses(s.issued[jti], Refresh, s.now) {
          AloneIsRotated(s, 0, jti);
        }
      case _ =>
    }
  }

  lemma {:induction false} ServedIsQuiet(start: nat, requests: seq<Request>)
    ensures Quiet(Served(Start(start), requests))
  {
    if requests != [] {
      ServedIsQuiet(start, requests[..|requests| - 1]);
      ServeKeepsQuiet(Served(Start(start), requests[..|requests| - 1]), requests[|requests| - 1]);
    }
  }

  /** A superseded token never revives, however long the server goes on serving. */
  lemma {:induction false} SupersededStaysSuperseded(start: nat, requests: seq<Request>, more: seq<Request>, t: Token)
    requires t.user in Served(Start(start), requests).db.accounts
    requires IsSuperseded(Served(Start(start), requests).db.accounts[t.user], t)
    ensures t.user in Served(Start(start), requests + more).db.accounts
    ensures IsSuperseded(Served(Start(start), requests + more).db.accounts[t.user], t)
  {
    if more == [] {
      assert requests + more == requests;
    } else {
      var front := more[..|more| - 1];
      assert (requests + more)[..|requests + more| - 1] == requests + front;
      SupersededStaysSuperseded(start, requests, front, t);
      ServedIsQuiet(start, requests + front);
      ServeKeepsStamps(Served(Start(start), requests + front), more[|more| - 1], t.user);
    }
  }

  // ---------- Why claims must be timely ----------

  /** Two clients parse one refresh token just before it expires. The first rotates it; two
      seconds later the collector has dropped the row, and the second client's late claim
      succeeds again. */
  function LateClaim(): seq<Label>
  {
    Opening() + Closing()
  }

  const FIRST := Token(1, 1, Refresh, 0, REFRESH_TTL)

  function Opening(): seq<Label>
  {
    [Enrol(1), Login(1), Tick(REFRESH_TTL * NANOS - 1)] + [Present(1, 1), Load(1)] + [Present(2, 1), Load(2)]
  }

  function Closing(): seq<Label>
  {
    [Claim(1), SignAccess(1), SignRefresh(1)] + [Tick(2 * NANOS), Gc] + [Claim(2), SignAccess(2), SignRefresh(2)]
  }

  lemma BothLoaded()
    ensures var s := Steps(Start(0), Opening());
            s.now == REFRESH_TTL * NANOS - 1 && s.db.revoked == map[] && s.minted == [] && s.dead == map[]
            && s.nextJti == 2 && s.logins == map[1 := 1] && s.db.accounts == map[1 := Account(0, false)]
            && s.clients == map[1 := Loaded(FIRST), 2 := Loaded(FIRST)]
  {
    var a := [Enrol(1), Login(1), Tick(REFRESH_TTL * NANOS - 1)];
    var b, c := [Present(1, 1), Load(1)], [Present(2, 1), Load(2)];
    ThreeSteps(Start(0), a[0], a[1], a[2]);
    var s1 := Steps(Start(0), a);
    assert s1.issued[1] == FIRST && s1.clients == map[] && s1.db.accounts == map[1 := Account(0, false)];
    PresentThenLoad(s1, 1, 1);
    var s2 := Steps(s1, b);
    assert s2 == Moved(s1, 1, Loaded(FIRST));
    PresentThenLoad(s2, 2, 1);
    StepsConcat(Start(0), a, b);
    StepsConcat(Start(0), a + b, c);
  }

  lemma ExpiredAndCollected(s: Sys, t: Token)
    requires s.now == t.exp * NANOS - 1 && s.db.revoked == map[t.jti := t.exp]
    ensures var n := Steps(s, [Tick(2 * NANOS), Gc]);
            n.clients == s.clients && n.minted == s.minted && n.db.revoked == map[]
  {
    TwoSteps(s, Tick(2 * NANOS), Gc);
    assert Unix(s.now + 2 * NANOS) == t.exp + 1;
  }

  lemma ClosingMintsTwice(s: Sys)
    requires s.now == REFRESH_TTL * NANOS - 1 && s.db.revoked == map[] && s.minted == []
    requires s.clients == map[1 := Loaded(FIRST), 2 := Loaded(FIRST)]
    ensures var minted := Steps(s, Closing()).minted; |minted| == 2 && minted[0].0 == 1 && minted[1].0 == 1
  {
    var a, b := [Claim(1), SignAccess(1), SignRefresh(1)], [Tick(2 * NANOS), Gc];
    var c := [Claim(2), SignAccess(2), SignRefresh(2)];
    StepsConcat(s, a, b);
    StepsConcat(s, a + b, c);
    ClaimThenSign(s, 1, FIRST);
    ExpiredAndCollected(Steps(s, a), FIRST);
    ClaimThenSign(Steps(Steps(s, a), b), 2, FIRST);
  }

  /** Without the timing condition the single-use promise fails: this run mints two pairs
      from the refresh token with jti 1. */
  lemma LateClaimMintsTwice()
    ensures var minted := Run(Start(0), LateClaim()).minted; |minted| == 2 && minted[0].0 == 1 && minted[1].0 == 1
  {
    BothLoaded();
    ClosingMintsTwice(Steps(Start(0), Opening()));
    StepsConcat(Start(0), Opening(), Closing());
    StepsIsRun(Start(0), LateClaim());
  }
}
