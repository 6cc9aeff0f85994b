// Access and refresh tokens, revocation and rotation. A token is a record with a unique
// jti (section 4.1.7 of RFC 7519); exp (4.1.4) and iat (4.1.6) are whole seconds, while
// the clock counts nanoseconds. Rotation with replay revocation is the scheme of section
// 4.14.2 of RFC 9700.
module Sessions {

  const NANOS := 1_000_000_000
  const ACCESS_TTL := 15 * 60
  const REFRESH_TTL := 7 * 24 * 3600

  datatype Audience = Access | Refresh

  datatype Token = Token(jti: nat, user: int, audience: Audience, iat: int, exp: int)

  /** The columns of a users row that sessions read: 0 means no stamp. */
  datatype Account = Account(validAfter: int, suspended: bool)

  /** users, and revoked_tokens as jti to expires_at. */
  datatype Tables = Tables(accounts: map<int, Account>, revoked: map<nat, int>)

  datatype Verdict =
    | Pass
    | InvalidToken        // failed to parse, unknown account
    | Revoked
    | Superseded
    | Suspended
    | Reused

  datatype Rotation = Pair(access: Token, refresh: Token) | Denied(why: Verdict)

  /** time.Time.Unix: the second an instant falls in. */
  function Unix(now: int): int
  {
    now / NANOS
  }

  function Sign(user: int, audience: Audience, now: int, jti: nat): Token
  {
    Token(jti, user, audience, Unix(now),
          Unix(now + (if audience.Access? then ACCESS_TTL else REFRESH_TTL) * NANOS))
  }

  /** parseToken and parseRefreshToken: the audience, and the clock strictly before exp. */
  predicate Parses(t: Token, audience: Audience, now: int)
  {
    t.audience == audience && now < t.exp * NANOS
  }

  predicate IsSuperseded(a: Account, t: Token)
  {
    a.validAfter > 0 && t.iat < a.validAfter
  }

  /** The account checks RequireAuth and RotateRefresh share. */
  function AccountVerdict(accounts: map<int, Account>, t: Token): Verdict
  {
    if t.user !in accounts then InvalidToken
    else if IsSuperseded(accounts[t.user], t) then Superseded
    else if accounts[t.user].suspended then Suspended
    else Pass
  }

  /** RequireAuth's answer to a bearer token, against any set of dead jtis. */
  function AuthVerdict(accounts: map<int, Account>, dead: set<nat>, t: Token, now: int): Verdict
  {
    if !Parses(t, Access, now) then InvalidToken
    else if t.jti in dead then Revoked
    else AccountVerdict(accounts, t)
  }

  /** The stamp of a replay: now, but never before the second after the token's iat. */
  function ReplayStamp(t: Token, now: int): int
  {
    if t.iat + 1 > Unix(now) then t.iat + 1 else Unix(now)
  }

  function WithValidAfter(db: Tables, user: int, stamp: int): Tables
  {
    if user in db.accounts
    then db.(accounts := db.accounts[user := db.accounts[user].(validAfter := stamp)])
    else db
  }

  /** The rows GCRevoked keeps. */
  function Collected(revoked: map<nat, int>, now: int): map<nat, int>
  {
    map j | j in revoked && !(revoked[j] < Unix(now)) :: revoked[j]
  }

  /** Clock readings and random jtis of one rotation, in the order it takes them. */
  datatype Readings = Readings(parsed: int, stamped: int, access: int, refresh: int, accessJti: nat, refreshJti: nat)

  /** A rotation nobody interrupts. */
  function Rotated(db: Tables, t: Token, r: Readings): (Rotation, Tables)
  {
    if !Parses(t, Refresh, r.parsed) then (Denied(InvalidToken), db)
    else if AccountVerdict(db.accounts, t) != Pass then (Denied(AccountVerdict(db.accounts, t)), db)
    else if t.jti in db.revoked then (Denied(Reused), WithValidAfter(db, t.user, ReplayStamp(t, r.stamped)))
    else (Pair(Sign(t.user, Access, r.access, r.accessJti), Sign(t.user, Refresh, r.refresh, r.refreshJti)),
          db.(revoked := db.revoked[t.jti := t.exp]))
  }

  class Auth {
    var db: Tables

    constructor ()
      ensures db == Tables(map[], map[])
    {
      db := Tables(map[], map[]);
    }

    /** INSERT OR IGNORE: an earlier row for the jti stays. */
    method Revoke(jti: nat, exp: int)
      modifies this
      ensures db == old(db).(revoked := if jti in old(db).revoked then old(db).revoked else old(db).revoked[jti := exp])
    {
      if jti !in db.revoked {
        db := db.(revoked := db.revoked[jti := exp]);
      }
    }

    /** Logout: it only parses the token, so a suspended account can still end sessions. */
    method RevokeFromRequest(t: Token, now: int) returns (ok: bool)
      modifies this
      ensures ok <==> Parses(t, Access, now)
      ensures !ok ==> db == old(db)
      ensures ok ==> db.accounts == old(db).accounts && db.revoked.Keys == old(db).revoked.Keys + {t.jti}
      ensures ok ==> forall j | j in old(db).revoked :: db.revoked[j] == old(db).revoked[j]
      ensures ok && t.jti !in old(db).revoked ==> db.revoked[t.jti] == t.exp
    {
      ok := Parses(t, Access, now);
      if !ok {
        return;
      }
      Revoke(t.jti, t.exp);
    }

    /** DELETE FROM revoked_tokens WHERE expires_at < now */
    method GCRevoked(now: int)
      modifies this
      ensures db == old(db).(revoked := Collected(old(db).revoked, now))
    {
      db := db.(revoked := Collected(db.revoked, now));
    }

    /** The plain INSERT: false is the primary-key refusal. */
    method ClaimJTI(jti: nat, exp: int) returns (claimed: bool)
      modifies this
      ensures claimed <==> jti !in old(db).revoked
      ensures db == if claimed then old(db).(revoked := old(db).revoked[jti := exp]) else old(db)
    {
      if jti in db.revoked {
        return false;
      }
      db := db.(revoked := db.revoked[jti := exp]);
      return true;
    }

    method InvalidateUserTokens(user: int, stamp: int)
      modifies this
      ensures db == WithValidAfter(old(db), user, stamp)
    {
      if user in db.accounts {
        db := db.(accounts := db.accounts[user := db.accounts[user].(validAfter := stamp)]);
      }
    }

    method RequireAuth(t: Token, now: int) returns (v: Verdict)
      ensures v == AuthVerdict(db.accounts, db.revoked.Keys, t, now)
      ensures v == Pass <==>
                t.audience == Access && now < t.exp * 1_000_000_000 && t.jti !in db.revoked && t.user in db.accounts
                && !db.accounts[t.user].suspended
                && (db.accounts[t.user].validAfter > 0 ==> t.iat >= db.accounts[t.user].validAfter)
    {
      if !Parses(t, Access, now) {
        return InvalidToken;
      }
      if t.jti in db.revoked {
        return Revoked;
      }
      if t.user !in db.accounts {
        return InvalidToken;
      }
      var u := db.accounts[t.user];
      if IsSuperseded(u, t) {
        return Superseded;
      }
      if u.suspended {
        return Suspended;
      }
      return Pass;
    }

    method RotateRefresh(t: Token, r: Readings) returns (res: Rotation)
      modifies this
      ensures (res, db) == Rotated(old(db), t, r)
      ensures res.Pair? <==>
                t.audience == Refresh && r.parsed < t.exp * 1_000_000_000 && t.user in old(db).accounts
                && !old(db).accounts[t.user].suspended
                && (old(db).accounts[t.user].validAfter > 0 ==> t.iat >= old(db).accounts[t.user].validAfter)
                && t.jti !in old(db).revoked
    {
      if !Parses(t, Refresh, r.parsed) {
        return Denied(InvalidToken);
      }
      if t.user !in db.accounts {
        return Denied(InvalidToken);
      }
      var u := db.accounts[t.user];
      if IsSuperseded(u, t) {
        return Denied(Superseded);
      }
      if u.suspended {
        return Denied(Suspended);
      }
      var claimed := ClaimJTI(t.jti, t.exp);
      if !claimed {
        var stamp := Unix(r.stamped);
        if t.iat + 1 > stamp {
          stamp := t.iat + 1;
        }
        InvalidateUserTokens(t.user, stamp);
        return Denied(Reused);
      }
      var access := Sign(t.user, Access, r.access, r.accessJti);
      var refresh := Sign(t.user, Refresh, r.refresh, r.refreshJti);
      return Pair(access, refresh);
    }
  }

  /** A replay strictly raises the stamp above its old value and the replayed token's iat,
      wherever the clock stands, so that token and all its siblings are superseded. */
  lemma ReplayRaisesTheStamp(db: Tables, t: Token, r: Readings, sibling: Token)
    requires t.iat >= 0
    requires Rotated(db, t, r).0 == Denied(Reused)
    requires sibling.user == t.user && sibling.iat <= t.iat
    ensures t.user in db.accounts && t.user in Rotated(db, t, r).1.accounts
    ensures Rotated(db, t, r).1.accounts[t.user].validAfter > db.accounts[t.user].validAfter
    ensures Rotated(db, t, r).1.accounts[t.user].validAfter > t.iat
    ensures IsSuperseded(Rotated(db, t, r).1.accounts[t.user], sibling)
  {
  }
}
