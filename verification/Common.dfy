// Shared vocabulary: optional values, and the order in which both SQLite's BINARY
// collation and Go's string comparison sort text.
module Common {

  datatype Option<+T> = None | Some(value: T)

  /** s sorts strictly before t. */
  predicate StrLess(s: string, t: string)
  {
    t != [] && (s == [] || s[0] < t[0] || (s[0] == t[0] && StrLess(s[1..], t[1..])))
  }

  predicate StrLe(s: string, t: string)
  {
    s == t || StrLess(s, t)
  }

  /** Two strings compare by the first position where they differ. */
  lemma {:induction false} FirstDifferenceDecides(s: string, t: string, k: nat)
    requires k < |s| && k < |t| && s[..k] == t[..k] && s[k] != t[k]
    ensures StrLess(s, t) <==> s[k] < t[k]
  {
    if k == 0 {
    } else {
      assert s[0] == s[..k][0] && t[0] == t[..k][0];
      assert s[1..][..k - 1] == s[..k][1..] && t[1..][..k - 1] == t[..k][1..];
      FirstDifferenceDecides(s[1..], t[1..], k - 1);
    }
  }

  lemma {:induction false} NotLessItself(s: string)
    ensures !StrLess(s, s)
  {
    if s != [] {
      NotLessItself(s[1..]);
    }
  }

  /** The first position where two different strings of one length differ. */
  lemma {:induction false} FindDifference(s: string, t: string) returns (k: nat)
    requires |s| == |t| && s != t
    ensures k < |s| && s[..k] == t[..k] && s[k] != t[k]
  {
    if s[0] != t[0] {
      k := 0;
    } else {
      assert s == [s[0]] + s[1..] && t == [t[0]] + t[1..];
      var j := FindDifference(s[1..], t[1..]);
      k := j + 1;
      assert s[..k] == [s[0]] + s[1..][..j];
      assert t[..k] == [t[0]] + t[1..][..j];
    }
  }
}
