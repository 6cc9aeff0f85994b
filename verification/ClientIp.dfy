// The address a request is attributed to: the direct peer, or the rightmost untrusted
// entry of the forwarding chain when the peer is a trusted proxy.
module ClientIp {
  import opened Common
  import opened Text

  /** strings.Split(s, ","). */
  function Split(s: string): (parts: seq<string>)
    ensures |parts| >= 1
  {
    if s == [] then [""]
    else
      var rest := Split(s[1..]);
      if s[0] == ',' then [""] + rest else [[s[0]] + rest[0]] + rest[1..]
  }

  /** Joining the pieces with commas again. */
  function Join(parts: seq<string>): string
    requires |parts| >= 1
  {
    if |parts| == 1 then parts[0] else parts[0] + ("," + Join(parts[1..]))
  }

  lemma SplitCons(c: char, s: string)
    ensures Split([c] + s) == if c == ',' then [""] + Split(s) else [[c] + Split(s)[0]] + Split(s)[1..]
  {
    assert ([c] + s)[1..] == s;
  }

  /** Joining what a text splits into gives it back, and no piece has a comma. */
  lemma {:induction false} JoinSplits(s: string)
    ensures Join(Split(s)) == s
    ensures forall p | p in Split(s) :: ',' !in p
  {
    if s != [] {
      JoinSplits(s[1..]);
      var rest := Split(s[1..]);
      assert s == [s[0]] + s[1..];
      SplitCons(s[0], s[1..]);
      if s[0] == ',' {
        assert ([""] + rest)[1..] == rest;
      } else if |rest| > 1 {
        assert ([[s[0]] + rest[0]] + rest[1..])[1..] == rest[1..];
        assert ([s[0]] + rest[0]) + ("," + Join(rest[1..])) == [s[0]] + (rest[0] + ("," + Join(rest[1..])));
      }
    }
  }

  lemma HeadIn(a: string, b: string)
    requires a != []
    ensures [a[0]] + (a[1..] + b) == a + b
  {
  }

  lemma Regroup(piece: string, rest: seq<string>, tail: seq<string>)
    requires |rest| >= 1
    ensures [piece] + (rest + tail)[1..] == ([piece] + rest[1..]) + tail
    ensures [""] + (rest + tail) == ([""] + rest) + tail
  {
  }

  /** Splitting two texts joined by a comma splits each. */
  lemma {:induction false} SplitConcat(a: string, b: string)
    ensures Split(a + ("," + b)) == Split(a) + Split(b)
  {
    if a == [] {
      SplitCons(',', b);
      assert a + ("," + b) == "," + b;
    } else {
      var c, rest, tail := a[0], Split(a[1..]), Split(b);
      SplitConcat(a[1..], b);
      SplitCons(c, a[1..]);
      SplitCons(c, a[1..] + ("," + b));
      HeadIn(a, "," + b);
      HeadIn(a, "");
      assert a[1..] + "" == a[1..] && a + "" == a;
      Regroup([c] + rest[0], rest, tail);
    }
  }

  /** isTrustedProxy trims the host before parsing it; what parses as a loopback address or
      falls in a configured network is the parameter. */
  predicate IsTrusted(host: string, trusted: string -> bool)
  {
    trusted(TrimSpace(host))
  }

  /** An entry the right-to-left scan stops at. */
  predicate Stops(part: string, trusted: string -> bool)
  {
    var ip := TrimSpace(part);
    ip != "" && !IsTrusted(ip, trusted)
  }

  /** i is the rightmost entry the scan stops at. */
  ghost predicate Rightmost(parts: seq<string>, i: int, trusted: string -> bool)
  {
    0 <= i < |parts| && Stops(parts[i], trusted)
    && forall j | i < j < |parts| :: !Stops(parts[j], trusted)
  }

  function LastStop(parts: seq<string>, trusted: string -> bool): Option<string>
  {
    if parts == [] then None
    else if Stops(parts[|parts| - 1], trusted) then Some(TrimSpace(parts[|parts| - 1]))
    else LastStop(parts[..|parts| - 1], trusted)
  }

  /** The key of a request, from the peer and the first X-Forwarded-For and X-Real-IP
      values ("" when absent). */
  function ClientKey(peer: string, forwardedFor: string, realIp: string, trusted: string -> bool): string
  {
    if !IsTrusted(peer, trusted) then peer
    else
      match LastStop(Split(forwardedFor), trusted)
      case Some(ip) => ip
      case None => if TrimSpace(realIp) != "" then TrimSpace(realIp) else peer
  }

  lemma RightmostExtends(parts: seq<string>, i: int, trusted: string -> bool)
    requires parts != [] && !Stops(parts[|parts| - 1], trusted) && Rightmost(parts[..|parts| - 1], i, trusted)
    ensures Rightmost(parts, i, trusted)
  {
    var front := parts[..|parts| - 1];
    forall j | i < j < |parts| ensures !Stops(parts[j], trusted) {
      assert j < |front| ==> front[j] == parts[j];
    }
  }

  /** Where the scan stops. */
  lemma {:induction false} StopsAt(parts: seq<string>, trusted: string -> bool) returns (i: int)
    requires LastStop(parts, trusted).Some?
    ensures Rightmost(parts, i, trusted) && LastStop(parts, trusted).value == TrimSpace(parts[i])
  {
    if Stops(parts[|parts| - 1], trusted) {
      i := |parts| - 1;
    } else {
      i := StopsAt(parts[..|parts| - 1], trusted);
      RightmostExtends(parts, i, trusted);
    }
  }

  lemma {:induction false} NowhereToStop(parts: seq<string>, trusted: string -> bool)
    requires LastStop(parts, trusted).None?
    ensures forall i | 0 <= i < |parts| :: !Stops(parts[i], trusted)
  {
    if parts != [] {
      var front := parts[..|parts| - 1];
      NowhereToStop(front, trusted);
      assert forall i | 0 <= i < |front| :: parts[i] == front[i];
    }
  }

  /** The scan's answer is the rightmost entry that is neither blank nor a trusted proxy. */
  lemma LastStopIsRightmost(parts: seq<string>, trusted: string -> bool)
    ensures LastStop(parts, trusted).None? ==> forall i | 0 <= i < |parts| :: !Stops(parts[i], trusted)
    ensures LastStop(parts, trusted).Some? ==>
              exists i :: Rightmost(parts, i, trusted) && LastStop(parts, trusted).value == TrimSpace(parts[i])
  {
    if LastStop(parts, trusted).Some? {
      var i := StopsAt(parts, trusted);
    } else {
      NowhereToStop(parts, trusted);
    }
  }

  /** The entry at i names an address that is not a trusted proxy. */
  ghost predicate Names(forwardedFor: string, i: int, trusted: string -> bool)
  {
    0 <= i < |Split(forwardedFor)|
    && TrimSpace(Split(forwardedFor)[i]) != "" && !trusted(TrimSpace(Split(forwardedFor)[i]))
  }

  /** An untrusted peer is its own key whatever its headers say. Behind a trusted one the key
      is the rightmost entry of X-Forwarded-For that names an untrusted address; without such
      an entry it is X-Real-IP, and without that the peer. */
  lemma KeyExactly(peer: string, forwardedFor: string, realIp: string, trusted: string -> bool)
    ensures !trusted(TrimSpace(peer)) ==> ClientKey(peer, forwardedFor, realIp, trusted) == peer
    ensures trusted(TrimSpace(peer)) ==>
              forall i | Names(forwardedFor, i, trusted)
                         && forall j | i < j < |Split(forwardedFor)| :: !Names(forwardedFor, j, trusted) ::
                ClientKey(peer, forwardedFor, realIp, trusted) == TrimSpace(Split(forwardedFor)[i])
    ensures trusted(TrimSpace(peer)) && (forall i :: !Names(forwardedFor, i, trusted)) ==>
              ClientKey(peer, forwardedFor, realIp, trusted)
              == if TrimSpace(realIp) != "" then TrimSpace(realIp) else peer
  {
    var parts := Split(forwardedFor);
    LastStopIsRightmost(parts, trusted);
    forall i | 0 <= i < |parts| ensures Stops(parts[i], trusted) <==> Names(forwardedFor, i, trusted) {
      TrimTwice(parts[i]);
    }
  }

  /** clientIP: the right-to-left loop over the chain. */
  method Resolve(peer: string, forwardedFor: string, realIp: string, trusted: string -> bool) returns (ip: string)
    ensures ip == ClientKey(peer, forwardedFor, realIp, trusted)
    ensures !trusted(TrimSpace(peer)) ==> ip == peer
  {
    if IsTrusted(peer, trusted) {
      assert forwardedFor == "" ==> !Stops("", trusted) && LastStop([], trusted).None?;
      if forwardedFor != "" {
        var parts := Split(forwardedFor);
        var i := |parts| - 1;
        assert parts[..i + 1] == parts;
        while i >= 0
          invariant -1 <= i < |parts|
          invariant LastStop(parts, trusted) == LastStop(parts[..i + 1], trusted)
        {
          var entry := TrimSpace(parts[i]);
          assert parts[..i + 1][..i] == parts[..i];
          TrimTwice(parts[i]);
          if entry == "" || IsTrusted(entry, trusted) {
            i := i - 1;
            continue;
          }
          return entry;
        }
      }
      var xri := TrimSpace(realIp);
      if xri != "" {
        return xri;
      }
    }
    return peer;
  }

  lemma {:induction false} LastStopConcat(a: seq<string>, b: seq<string>, trusted: string -> bool)
    ensures LastStop(a + b, trusted) == if LastStop(b, trusted).Some? then LastStop(b, trusted)
        else LastStop(a, trusted)
  {
    if b == [] {
      assert a + b == a;
    } else {
      assert (a + b)[..|a + b| - 1] == a + b[..|b| - 1];
      LastStopConcat(a, b[..|b| - 1], trusted);
    }
  }

  /** Once the header holds an entry the scan stops at, nothing put in front of it changes
      the key; and behind an untrusted peer no header changes it. */
  lemma {:induction false} PrependingChangesNothing(peer: string, junk: string, forwardedFor: string, realIp: string,
      trusted: string -> bool)
    requires !IsTrusted(peer, trusted) || LastStop(Split(forwardedFor), trusted).Some?
    ensures ClientKey(peer, junk + ("," + forwardedFor), realIp, trusted)
        == ClientKey(peer, forwardedFor, realIp, trusted)
  {
    SplitConcat(junk, forwardedFor);
    LastStopConcat(Split(junk), Split(forwardedFor), trusted);
  }

  lemma {:induction false} SplitWithoutComma(s: string)
    requires ',' !in s
    ensures Split(s) == [s]
  {
    if s != [] {
      SplitWithoutComma(s[1..]);
      assert [s[0]] + s[1..] == s;
    }
  }

  /** Behind a chain of trusted proxies that each append the address they saw, the key is
      the first untrusted address they recorded, whatever header the client sent. */
  lemma {:induction false} AppendedAddressWins(peer: string, sent: string, seen: string, proxies: seq<string>,
      realIp: string, trusted: string -> bool)
    requires IsTrusted(peer, trusted)
    requires ',' !in seen && Stops(seen, trusted)
    requires forall p | p in proxies :: ',' !in p && !Stops(p, trusted)
    ensures ClientKey(peer, sent + ("," + Join([seen] + proxies)), realIp, trusted) == TrimSpace(seen)
  {
    var chain := [seen] + proxies;
    SplitJoin(chain);
    SplitConcat(sent, Join(chain));
    LastStopConcat(Split(sent), chain, trusted);
    LastStopConcat([seen], proxies, trusted);
    LastStopIsRightmost(proxies, trusted);
  }

  lemma {:induction false} SplitJoin(parts: seq<string>)
    requires |parts| >= 1 && forall p | p in parts :: ',' !in p
    ensures Split(Join(parts)) == parts
  {
    SplitWithoutComma(parts[0]);
    if |parts| > 1 {
      SplitJoin(parts[1..]);
      SplitConcat(parts[0], Join(parts[1..]));
    }
  }
}
