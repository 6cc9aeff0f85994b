// Phone canonicalisation to E.164 (clause 6.1 of ITU-T E.164: at most 15 digits).
module Phone {
  import opened Common
  import opened Text

  const MAX_PHONE_LEN := 32

  predicate IsDigit(c: char) { '0' <= c <= '9' }

  predicate IsSeparator(c: char)
  {
    c == ' ' || c == '-' || c == '(' || c == ')' || c == '.'
  }

  predicate AllDigits(s: string)
  {
    forall i | 0 <= i < |s| :: IsDigit(s[i])
  }

  /** The canonical shape: a plus, a non-zero digit and 7 to 14 more digits. */
  predicate IsE164(s: string)
  {
    9 <= |s| <= 16 && s[0] == '+' && s[1] != '0' && AllDigits(s[1..])
  }

  /** The database CHECK on users.phone. */
  predicate MeetsCheck(s: string)
  {
    s == "" || (s[0] == '+' && 9 <= |s| <= 16)
  }

  /** A country configuration that startup validation accepts. */
  predicate ValidConfig(cc: string, nationalLen: int)
  {
    1 <= |cc| <= 3 && AllDigits(cc) && cc[0] != '0' && 4 <= nationalLen <= 12
  }

  /** Only digits and separators, with a plus allowed as the very first character. */
  predicate WellTyped(s: string)
  {
    forall i | 0 <= i < |s| :: IsDigit(s[i]) || IsSeparator(s[i]) || (s[i] == '+' && i == 0)
  }

  function DropSeparators(s: string): string
  {
    if s == [] then []
    else if IsSeparator(s[|s| - 1]) then DropSeparators(s[..|s| - 1])
    else DropSeparators(s[..|s| - 1]) + [s[|s| - 1]]
  }

  /** The country completion and the final shape test, on text without separators. */
  function Complete(s: string, cc: string, nationalLen: int): Option<string>
  {
    var full :=
      if s != [] && s[0] == '+' then Some(s)
      else if |s| == nationalLen then Some("+" + cc + s)
      else if |s| == |cc| + nationalLen && cc <= s then Some("+" + s)
      else None;
    if full.Some? && IsE164(full.value) then full else None
  }

  /** What normalizePhone returns: None is "invalid phone". Lengths count characters; the
      source counts bytes, which only differs on text it refuses in either case. */
  function Normalize(raw: string, cc: string, nationalLen: int): Option<string>
  {
    var s := TrimSpace(raw);
    if s == [] then Some("")
    else if |s| > MAX_PHONE_LEN || !WellTyped(s) then None
    else Complete(DropSeparators(s), cc, nationalLen)
  }

  lemma DropSeparatorsStep(s: string, i: int)
    requires 0 <= i < |s|
    ensures DropSeparators(s[..i + 1])
         == DropSeparators(s[..i]) + (if IsSeparator(s[i]) then [] else [s[i]])
  {
    assert s[..i + 1][..i] == s[..i];
  }

  /** normalizePhone: filter into a builder, then complete the country code. */
  method NormalizePhone(raw: string, cc: string, nationalLen: int) returns (phone: string, ok: bool)
    ensures ok <==> Normalize(raw, cc, nationalLen).Some?
    ensures ok ==> phone == Normalize(raw, cc, nationalLen).value
    ensures !ok ==> phone == ""
  {
    var s := TrimSpace(raw);
    if s == "" {
      return "", true;
    }
    if |s| > MAX_PHONE_LEN {
      return "", false;
    }
    var b := "";
    for i := 0 to |s|
      invariant WellTyped(s[..i])
      invariant b == DropSeparators(s[..i])
    {
      DropSeparatorsStep(s, i);
      if IsDigit(s[i]) {
        b := b + [s[i]];
      } else if s[i] == '+' && i == 0 {
        b := b + [s[i]];
      } else if IsSeparator(s[i]) {
      } else {
        return "", false;
      }
    }
    assert s[..|s|] == s;
    s := b;
    if "+" <= s {
    } else if |s| == nationalLen {
      s := "+" + cc + s;
    } else if |s| == |cc| + nationalLen && cc <= s {
      s := "+" + s;
    } else {
      return "", false;
    }
    if !IsE164(s) {
      return "", false;
    }
    return s, true;
  }

  lemma {:induction false} NothingToDrop(s: string)
    requires forall i | 0 <= i < |s| :: !IsSeparator(s[i])
    ensures DropSeparators(s) == s
  {
    if s != [] {
      NothingToDrop(s[..|s| - 1]);
    }
  }

  /** Every accepted phone is empty or canonical, empty only for blank input, and meets
      the database CHECK. */
  lemma AcceptedIsCanonical(raw: string, cc: string, nationalLen: int)
    requires Normalize(raw, cc, nationalLen).Some?
    ensures var p := Normalize(raw, cc, nationalLen).value;
            MeetsCheck(p) && (p == "" || IsE164(p)) && (p == "" <==> TrimSpace(raw) == "")
  {
  }

  /** A canonical number is returned as it stands, under every configuration. */
  lemma CanonicalIsFixed(p: string, cc: string, nationalLen: int)
    requires p == "" || IsE164(p)
    ensures Normalize(p, cc, nationalLen) == Some(p)
  {
    if p != "" {
      assert p[|p| - 1] == p[1..][|p| - 2];
      assert TrimSpace(p) == p;
      forall i | 1 <= i < |p| ensures IsDigit(p[i]) { assert p[i] == p[1..][i - 1]; }
      NothingToDrop(p);
    }
  }

  /** Normalising twice is normalising once. */
  lemma NormalizeIsIdempotent(raw: string, cc: string, nationalLen: int)
    requires Normalize(raw, cc, nationalLen).Some?
    ensures var p := Normalize(raw, cc, nationalLen).value;
            Normalize(p, cc, nationalLen) == Some(p)
  {
    AcceptedIsCanonical(raw, cc, nationalLen);
    CanonicalIsFixed(Normalize(raw, cc, nationalLen).value, cc, nationalLen);
  }

  /** raw is a typing of chars: padding around, separators inside, within the cap. */
  predicate Types(raw: string, chars: string)
  {
    var s := TrimSpace(raw);
    |s| <= MAX_PHONE_LEN && WellTyped(s) && DropSeparators(s) == chars
  }

  /** The stored form of a national number: its full international digits, when E.164
      has room for them. */
  function International(digits: string, cc: string): Option<string>
  {
    if 8 <= |cc| + |digits| <= 15 then Some("+" + cc + digits) else None
  }

  /** However it is typed, a national number, the same number after its country code and
      the same number in international form all become one stored phone, or all are
      refused: they are accepted exactly when the full number has 8 to 15 digits. */
  lemma SpellingsAgree(national: string, coded: string, international: string, digits: string, cc: string,
                       nationalLen: int)
    requires ValidConfig(cc, nationalLen)
    requires |digits| == nationalLen && AllDigits(digits)
    requires Types(national, digits) && Types(coded, cc + digits) && Types(international, "+" + cc + digits)
    ensures Normalize(national, cc, nationalLen) == International(digits, cc)
    ensures Normalize(coded, cc, nationalLen) == International(digits, cc)
    ensures Normalize(international, cc, nationalLen) == International(digits, cc)
  {
    assert DropSeparators("") == "";
    var full := "+" + cc + digits;
    assert full[1..] == cc + digits;
    assert IsE164(full) <==> 8 <= |cc| + nationalLen;
    assert "+" + (cc + digits) == full;
    assert IsDigit(digits[0]) && IsDigit((cc + digits)[0]);
  }

  // ---------- What may be typed ----------

  lemma PaddingIsIgnored(raw: string, cc: string, nationalLen: int)
    ensures Normalize(raw, cc, nationalLen) == Normalize(TrimSpace(raw), cc, nationalLen)
  {
    TrimTwice(raw);
  }

  lemma {:induction false} DropConcat(a: string, b: string)
    ensures DropSeparators(a + b) == DropSeparators(a) + DropSeparators(b)
  {
    if b == [] {
      assert a + b == a;
    } else {
      var front, last := b[..|b| - 1], b[|b| - 1];
      assert (a + b)[..|a + b| - 1] == a + front;
      DropConcat(a, front);
    }
  }

  lemma InsertTyped(a: string, c: char, b: string)
    requires IsSeparator(c) && (a == [] ==> b != [] && b[0] != '+')
    ensures WellTyped(a + [c] + b) <==> WellTyped(a + b)
  {
    var s, t := a + [c] + b, a + b;
    assert forall i | 0 <= i < |a| :: s[i] == t[i];
    assert forall i | |a| <= i < |t| :: t[i] == s[i + 1];
    assert forall i | |a| < i < |s| :: s[i] == t[i - 1];
  }

  lemma TrimsToItself(s: string)
    requires s != [] && !IsSpace(s[0]) && !IsSpace(s[|s| - 1])
    ensures TrimSpace(s) == s
  {
  }

  /** A space inside, or a hyphen, parenthesis or dot anywhere but before a leading plus, does
      not matter. */
  lemma SeparatorIsIgnored(a: string, c: char, b: string, cc: string, nationalLen: int)
    requires c in " -()." && (c == ' ' ==> a != [] && b != [])
    requires a + b != [] && !IsSpace((a + b)[0]) && !IsSpace((a + b)[|a + b| - 1]) && (a == [] ==> b[0] != '+')
    requires |a + b| < 32
    ensures Normalize(a + [c] + b, cc, nationalLen) == Normalize(a + b, cc, nationalLen)
  {
    var s := a + [c] + b;
    assert a != [] ==> s[0] == (a + b)[0];
    assert b != [] ==> s[|s| - 1] == (a + b)[|a + b| - 1];
    TrimsToItself(a + b);
    TrimsToItself(s);
    InsertTyped(a, c, b);
    DropConcat(a + [c], b);
    DropConcat(a, [c]);
    DropConcat(a, b);
    assert DropSeparators([c]) == [] by { assert [c][..0] == []; }
  }

  /** Nothing else is let in: a character that is no digit and none of those, a plus that does
      not lead, or more than 32 characters. */
  lemma OtherTextIsRefused(raw: string, i: nat, cc: string, nationalLen: int)
    requires i < |TrimSpace(raw)|
    requires |TrimSpace(raw)| > 32 || (TrimSpace(raw)[i] !in "0123456789 -()." && (TrimSpace(raw)[i] == '+' ==> i > 0))
    ensures Normalize(raw, cc, nationalLen).None?
  {
  }

  /** A plus, a digit from 1 to 9, and 7 to 14 more digits. */
  predicate IsCanonical(p: string)
  {
    9 <= |p| <= 16 && p[0] == '+' && '1' <= p[1] <= '9' && forall i | 2 <= i < |p| :: '0' <= p[i] <= '9'
  }

  lemma CanonicalIsE164(p: string)
    ensures IsE164(p) <==> IsCanonical(p)
  {
    if |p| >= 2 {
      assert forall i | 1 <= i < |p| :: p[1..][i - 1] == p[i];
    }
  }

  lemma PlainIsKept(s: string)
    requires s != [] && forall i | 0 <= i < |s| :: '0' <= s[i] <= '9' || (s[i] == '+' && i == 0)
    ensures TrimSpace(s) == s && WellTyped(s) && DropSeparators(s) == s
  {
    TrimsToItself(s);
    NothingToDrop(s);
  }

  /** A number typed without separators becomes p exactly when p is canonical and is the number
      itself, the number after a plus when it starts with the country code and has its length, or
      the number after plus and country code when it has the national length. */
  lemma PlainNumberExactly(s: string, p: string, cc: string, nationalLen: int)
    requires ValidConfig(cc, nationalLen) && 1 <= |s| <= 32
    requires forall i | 0 <= i < |s| :: '0' <= s[i] <= '9' || (s[i] == '+' && i == 0)
    ensures Normalize(s, cc, nationalLen) == Some(p) <==>
              IsCanonical(p)
              && (p == s
                  || (s[0] != '+' && cc <= s && |s| == |cc| + nationalLen && p == "+" + s)
                  || (s[0] != '+' && |s| == nationalLen && p == "+" + cc + s))
  {
    PlainIsKept(s);
    CanonicalIsE164(p);
  }
}
