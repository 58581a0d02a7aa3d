/**
 * The few java.lang.String operations the parser's hand-written code relies on:
 * strip, isBlank, isEmpty, indexOf, lastIndexOf, split and joining.
 * A Java string is modelled as a sequence of characters.
 */
module Text {

  /** java.lang.Character.isWhitespace: the Unicode space separators except the
      non-breaking ones, plus the ASCII control characters that Java counts as space. */
  predicate IsWhitespace(c: char) {
    c == ' ' || c == '\t' || c == '\n' || c == '\U{000B}' || c == '\U{000C}' || c == '\r'
    || ('\U{001C}' <= c <= '\U{001F}')
    || c == '\U{1680}' || ('\U{2000}' <= c <= '\U{2006}') || ('\U{2008}' <= c <= '\U{200A}')
    || c == '\U{2028}' || c == '\U{2029}' || c == '\U{205F}' || c == '\U{3000}'
  }

  /** The class `\s` of java.util.regex (without UNICODE_CHARACTER_CLASS). */
  const RegexSpaces: set<char> := {' ', '\t', '\n', '\U{000B}', '\U{000C}', '\r'}

  /** String.isBlank */
  predicate IsBlank(s: string) {
    forall i :: 0 <= i < |s| ==> IsWhitespace(s[i])
  }

  /** A string that String.strip leaves alone. */
  predicate IsStripped(s: string) {
    s == [] || (!IsWhitespace(s[0]) && !IsWhitespace(s[|s| - 1]))
  }

  /** Number of leading whitespace characters. */
  function LeadingSpace(s: string): (n: nat)
    ensures n <= |s|
    ensures forall i :: 0 <= i < n ==> IsWhitespace(s[i])
    ensures n < |s| ==> !IsWhitespace(s[n])
  {
    if s == [] || !IsWhitespace(s[0]) then 0 else 1 + LeadingSpace(s[1..])
  }

  /** Number of trailing whitespace characters. */
  function TrailingSpace(s: string): (n: nat)
    ensures n <= |s|
    ensures forall i :: |s| - n <= i < |s| ==> IsWhitespace(s[i])
    ensures n < |s| ==> !IsWhitespace(s[|s| - 1 - n])
  {
    if s == [] || !IsWhitespace(s[|s| - 1]) then 0 else 1 + TrailingSpace(s[..|s| - 1])
  }

  /** String.strip: the string without its leading and trailing whitespace. */
  function Strip(s: string): (r: string)
    ensures IsStripped(r)
    ensures LeadingSpace(s) + |r| <= |s| && r == s[LeadingSpace(s)..LeadingSpace(s) + |r|]
    ensures IsBlank(s[..LeadingSpace(s)]) && IsBlank(s[LeadingSpace(s) + |r|..])
    ensures r == [] <==> IsBlank(s)
  {
    var t := s[LeadingSpace(s)..];
    assert IsBlank(s) ==> LeadingSpace(s) == |s|;
    t[..|t| - TrailingSpace(t)]
  }

  /** Stripping a stripped string changes nothing, so Strip is idempotent. */
  lemma StrippedIsFixpoint(s: string)
    requires IsStripped(s)
    ensures Strip(s) == s
  {
    if s != [] {
      assert LeadingSpace(s) == 0;
      assert TrailingSpace(s) == 0;
    }
  }

  lemma StripIdempotent(s: string)
    ensures Strip(Strip(s)) == Strip(s)
  {
    StrippedIsFixpoint(Strip(s));
  }

  /** String.join / Collectors.joining / StringJoiner with a delimiter. */
  function Join(parts: seq<string>, sep: string): (r: string)
    ensures |parts| == 1 ==> r == parts[0]
    ensures parts == [] ==> r == []
  {
    if parts == [] then [] else if |parts| == 1 then parts[0] else parts[0] + sep + Join(parts[1..], sep)
  }

  /** String.indexOf(c): the first position of c, or -1. */
  function IndexOf(s: string, c: char): (k: int)
    ensures -1 <= k < |s|
    ensures k == -1 <==> c !in s
    ensures 0 <= k ==> s[k] == c && c !in s[..k]
  {
    if s == [] then -1
    else if s[0] == c then 0
    else
      var k := IndexOf(s[1..], c);
      assert s[1..][..if k < 0 then 0 else k] == s[1..if k < 0 then 1 else k + 1];
      if k == -1 then -1 else k + 1
  }

  /** String.lastIndexOf(c): the last position of c, or -1. */
  function LastIndexOf(s: string, c: char): (k: int)
    ensures -1 <= k < |s|
    ensures k == -1 <==> c !in s
    ensures 0 <= k ==> s[k] == c && c !in s[k + 1..]
  {
    if s == [] then -1
    else if s[|s| - 1] == c then |s| - 1
    else
      var k := LastIndexOf(s[..|s| - 1], c);
      assert forall i :: k < i < |s| - 1 ==> s[..|s| - 1][i] == s[i];
      k
  }

  /** A position holding c with no c before it is what indexOf finds. */
  lemma IndexOfAt(s: string, c: char, k: nat)
    requires k < |s| && s[k] == c && c !in s[..k]
    ensures IndexOf(s, c) == k
  {
    assert c in s;
  }

  /** A position holding c with no c after it is what lastIndexOf finds. */
  lemma LastIndexOfAt(s: string, c: char, k: nat)
    requires k < |s| && s[k] == c && c !in s[k + 1..]
    ensures LastIndexOf(s, c) == k
  {
    assert c in s;
  }

  /** The pieces between separator characters, empty pieces included: the
      raw result of a regular-expression split on a one-character class. */
  function Pieces(s: string, seps: set<char>): (r: seq<string>)
    ensures |r| >= 1
    ensures forall i, j :: 0 <= i < |r| && 0 <= j < |r[i]| ==> r[i][j] !in seps
  {
    if s == [] then [[]]
    else
      var rest := Pieces(s[1..], seps);
      if s[0] in seps then [[]] + rest
      else
        assert forall j :: 0 <= j < |rest[0]| ==> rest[0][j] !in seps;
        [[s[0]] + rest[0]] + rest[1..]
  }

  /** Joining the pieces back with the separator restores the string. */
  lemma {:induction false} JoinPieces(s: string, c: char)
    ensures Join(Pieces(s, {c}), [c]) == s
  {
    if s != [] {
      JoinPieces(s[1..], c);
      var rest := Pieces(s[1..], {c});
      if s[0] == c {
        assert Pieces(s, {c}) == [[]] + rest;
      } else {
        assert Pieces(s, {c}) == [[s[0]] + rest[0]] + rest[1..];
        if |rest| > 1 {
          assert rest == [rest[0]] + rest[1..];
          assert Join(rest, [c]) == rest[0] + [c] + Join(rest[1..], [c]);
        }
      }
    }
  }

  /** Without a separator there is exactly one piece, the whole string. */
  lemma {:induction false} PiecesWithoutSeparator(s: string, seps: set<char>)
    requires forall i :: 0 <= i < |s| ==> s[i] !in seps
    ensures Pieces(s, seps) == [s]
  {
    if s != [] {
      PiecesWithoutSeparator(s[1..], seps);
      assert [s[0]] + s[1..] == s;
    }
  }

  /** A separator at position i splits off a non-empty remainder. */
  lemma {:induction false} PiecesAtSeparator(s: string, seps: set<char>, i: nat)
    requires i < |s| && s[i] in seps
    ensures |Pieces(s, seps)| >= 2
  {
    if i > 0 {
      PiecesAtSeparator(s[1..], seps, i - 1);
    }
  }

  /** The last piece is non-empty when the string ends with a non-separator. */
  lemma {:induction false} LastPieceNonEmpty(s: string, seps: set<char>)
    requires s != [] && s[|s| - 1] !in seps
    ensures var r := Pieces(s, seps); r[|r| - 1] != []
  {
    var rest := Pieces(s[1..], seps);
    if |s| > 1 {
      LastPieceNonEmpty(s[1..], seps);
      assert s[1..][|s[1..]| - 1] == s[|s| - 1];
      if s[0] in seps {
        assert Pieces(s, seps) == [[]] + rest;
      } else {
        assert Pieces(s, seps) == [[s[0]] + rest[0]] + rest[1..];
      }
    } else {
      assert s[1..] == [] && rest == [[]] && s[0] !in seps;
      assert Pieces(s, seps) == [[s[0]] + rest[0]] + rest[1..];
    }
  }

  /** Java's split drops trailing empty strings from the raw pieces. */
  function DropTrailingEmpty(ps: seq<string>): (r: seq<string>)
    ensures |r| <= |ps| && r == ps[..|r|]
    ensures forall i :: |r| <= i < |ps| ==> ps[i] == []
    ensures r == [] || r[|r| - 1] != []
  {
    if ps == [] || ps[|ps| - 1] != [] then ps else DropTrailingEmpty(ps[..|ps| - 1])
  }

  /** String.split(regex) with limit 0, for a regex that is a one-character class:
      when nothing matches the result is the string itself, otherwise the pieces
      without their trailing empty strings. */
  function JavaSplit(s: string, seps: set<char>): seq<string> {
    if forall i :: 0 <= i < |s| ==> s[i] !in seps then [s] else DropTrailingEmpty(Pieces(s, seps))
  }

  /** On a stripped string, `split("\\s")` has exactly one part iff the string
      holds no `\s` character: a single whitespace-free word (possibly empty). */
  lemma SingleWordSplit(s: string)
    requires IsStripped(s)
    ensures |JavaSplit(s, RegexSpaces)| == 1 <==> forall i :: 0 <= i < |s| ==> s[i] !in RegexSpaces
  {
    if exists i :: 0 <= i < |s| && s[i] in RegexSpaces {
      var i :| 0 <= i < |s| && s[i] in RegexSpaces;
      PiecesAtSeparator(s, RegexSpaces, i);
      LastPieceNonEmpty(s, RegexSpaces);
      var ps := Pieces(s, RegexSpaces);
      assert DropTrailingEmpty(ps) == ps;
    }
  }
}
