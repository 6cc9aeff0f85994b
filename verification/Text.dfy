// strings.TrimSpace, shared by the phone and the forwarded-address cores.
module Text {

  /** unicode.IsSpace */
  predicate IsSpace(c: char)
  {
    '\t' <= c <= '\r' || c == ' ' || c == '\U{0085}' || c == '\U{00A0}' || c == '\U{1680}'
    || '\U{2000}' <= c <= '\U{200A}' || c == '\U{2028}' || c == '\U{2029}' || c == '\U{202F}'
    || c == '\U{205F}' || c == '\U{3000}'
  }

  function TrimLeft(s: string): string
  {
    if s != [] && IsSpace(s[0]) then TrimLeft(s[1..]) else s
  }

  function TrimRight(s: string): string
  {
    if s != [] && IsSpace(s[|s| - 1]) then TrimRight(s[..|s| - 1]) else s
  }

  function TrimSpace(s: string): string
  {
    TrimRight(TrimLeft(s))
  }

  /** Only text that starts and ends with a printing character, or no text, is left. */
  lemma {:induction false} TrimRightEdges(s: string)
    ensures TrimRight(s) <= s
    ensures TrimRight(s) != [] ==> !IsSpace(TrimRight(s)[|TrimRight(s)| - 1])
  {
    if s != [] && IsSpace(s[|s| - 1]) {
      TrimRightEdges(s[..|s| - 1]);
    }
  }

  lemma {:induction false} TrimLeftEdges(s: string)
    ensures TrimLeft(s) != [] ==> !IsSpace(TrimLeft(s)[0])
  {
    if s != [] && IsSpace(s[0]) {
      TrimLeftEdges(s[1..]);
    }
  }

  lemma TrimTwice(s: string)
    ensures TrimSpace(TrimSpace(s)) == TrimSpace(s)
  {
    TrimLeftEdges(s);
    TrimRightEdges(TrimLeft(s));
  }

  /** The code points of the Unicode property White_Space. */
  const WHITE_SPACE: set<char> :=
    { '\U{0009}', '\U{000A}', '\U{000B}', '\U{000C}', '\U{000D}', '\U{0020}', '\U{0085}', '\U{00A0}', '\U{1680}',
      '\U{2000}', '\U{2001}', '\U{2002}', '\U{2003}', '\U{2004}', '\U{2005}', '\U{2006}', '\U{2007}', '\U{2008}',
      '\U{2009}', '\U{200A}', '\U{2028}', '\U{2029}', '\U{202F}', '\U{205F}', '\U{3000}' }

  predicate Blank(s: string)
  {
    forall c | c in s :: c in WHITE_SPACE
  }

  lemma SpaceIsWhite(c: char)
    ensures IsSpace(c) <==> c in WHITE_SPACE
  {
  }

  lemma {:induction false} TrimRightTakes(s: string) returns (pad: string)
    ensures s == TrimRight(s) + pad && Blank(pad)
  {
    pad := "";
    if s != [] && IsSpace(s[|s| - 1]) {
      var rest := TrimRightTakes(s[..|s| - 1]);
      SpaceIsWhite(s[|s| - 1]);
      pad := rest + [s[|s| - 1]];
      assert s == s[..|s| - 1] + [s[|s| - 1]];
    }
  }

  lemma {:induction false} TrimLeftTakes(s: string) returns (pad: string)
    ensures s == pad + TrimLeft(s) && Blank(pad)
  {
    pad := "";
    if s != [] && IsSpace(s[0]) {
      var rest := TrimLeftTakes(s[1..]);
      SpaceIsWhite(s[0]);
      pad := [s[0]] + rest;
      assert s == [s[0]] + s[1..];
    }
  }

  /** TrimSpace takes white space off both ends, and all of it. */
  lemma TrimSpaceExactly(s: string) returns (left: string, right: string)
    ensures s == left + TrimSpace(s) + right && Blank(left) && Blank(right)
    ensures TrimSpace(s) != "" ==>
              TrimSpace(s)[0] !in WHITE_SPACE && TrimSpace(s)[|TrimSpace(s)| - 1] !in WHITE_SPACE
  {
    left := TrimLeftTakes(s);
    right := TrimRightTakes(TrimLeft(s));
    TrimLeftEdges(s);
    TrimRightEdges(TrimLeft(s));
    if TrimSpace(s) != "" {
      SpaceIsWhite(TrimSpace(s)[0]);
      SpaceIsWhite(TrimSpace(s)[|TrimSpace(s)| - 1]);
    }
  }
}
