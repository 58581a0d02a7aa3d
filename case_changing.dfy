/**
 * CaseChangingCharStream: a wrapper that shows the lexer upper-cased
 * lookahead while leaving the text of the input alone. It is what makes
 * keywords case-insensitive in both Latin and Cyrillic spelling.
 */
module CaseChanging {
  import opened CharStreams

  /** Character.toUpperCase on code points, for the Latin and Cyrillic letters
      of the language's keywords; every other code point is returned unchanged. */
  function ToUpperCase(c: int): (u: int)
    ensures (u > 0) == (c > 0)
  {
    if 0x61 <= c <= 0x7A then c - 0x20        // a..z
    else if 0x430 <= c <= 0x44F then c - 0x20 // а..я
    else if 0x450 <= c <= 0x45F then c - 0x50 // ѐ..џ, ё among them
    else c
  }

  /** Upper-casing twice is the same as once. */
  lemma ToUpperCaseIdempotent(c: int)
    ensures ToUpperCase(ToUpperCase(c)) == ToUpperCase(c)
  {
  }

  function UpperAll(s: seq<int>): (u: seq<int>)
    ensures |u| == |s| && forall k :: 0 <= k < |s| ==> u[k] == ToUpperCase(s[k])
  {
    seq(|s|, k requires 0 <= k < |s| => ToUpperCase(s[k]))
  }

  /** An upper-case letter of the keywords' alphabets: A..Z, Ѐ..Џ or А..Я. */
  predicate IsUpperLetter(c: int) {
    0x41 <= c <= 0x5A || 0x400 <= c <= 0x40F || 0x410 <= c <= 0x42F
  }

  /** The lower-case form of an upper-case letter. */
  function LowerOf(c: int): (l: int)
    requires IsUpperLetter(c)
  {
    if 0x400 <= c <= 0x40F then c + 0x50 else c + 0x20
  }

  /** A word spelled with upper-case letters, and any spelling of it that puts
      some of those letters in lower case, give the lexer the same code
      points: the word itself. */
  lemma {:induction false} AnyLetterCase(word: seq<int>, spelling: seq<int>)
    requires forall k :: 0 <= k < |word| ==> IsUpperLetter(word[k])
    requires |spelling| == |word|
    requires forall k :: 0 <= k < |word| ==> spelling[k] == word[k] || spelling[k] == LowerOf(word[k])
    ensures UpperAll(spelling) == word
  {
    forall k | 0 <= k < |word|
      ensures UpperAll(spelling)[k] == word[k]
    {
      assert spelling[k] == word[k] || spelling[k] == LowerOf(word[k]);
    }
  }

  /** "Если", "ЕСЛИ", "если" each upper-case to ЕСЛИ, and "If", "IF", "if" to IF. */
  lemma KeywordSpellings()
    ensures UpperAll([0x415, 0x441, 0x43B, 0x438]) == UpperAll([0x415, 0x421, 0x41B, 0x418])
    ensures UpperAll([0x435, 0x441, 0x43B, 0x438]) == [0x415, 0x421, 0x41B, 0x418]
    ensures UpperAll([0x49, 0x66]) == UpperAll([0x69, 0x66]) == [0x49, 0x46]
  {
    var esli := [0x415, 0x421, 0x41B, 0x418];
    AnyLetterCase(esli, [0x415, 0x441, 0x43B, 0x438]);
    AnyLetterCase(esli, esli);
    AnyLetterCase(esli, [0x435, 0x441, 0x43B, 0x438]);
    AnyLetterCase([0x49, 0x46], [0x49, 0x66]);
    AnyLetterCase([0x49, 0x46], [0x69, 0x66]);
  }

  class CaseChangingCharStream {
    const stream: CharStream

    constructor (stream: CharStream)
      ensures this.stream == stream
    {
      this.stream := stream;
    }

    /** getText(interval): the wrapped stream's original text, never upper-cased. */
    function GetText(a: int, b: int): (text: seq<int>)
      reads stream
      requires 0 <= a <= b + 1
      ensures text == stream.GetText(a, b)
    {
      stream.GetText(a, b)
    }

    /** LA(i): the upper-cased lookahead; EOF and other non-positive values pass through. */
    function LA(i: int): (c: int)
      reads stream
      requires stream.Valid()
      ensures stream.LA(i) <= 0 ==> c == stream.LA(i)
      ensures stream.LA(i) > 0 ==> c == ToUpperCase(stream.LA(i))
    {
      var c := stream.LA(i);
      if c <= 0 then c else ToUpperCase(c)
    }

    function Index(): (i: int)
      reads stream
      ensures i == stream.Index()
    {
      stream.Index()
    }

    function Size(): (n: int)
      ensures n == stream.Size()
    {
      stream.Size()
    }

    method Consume()
      requires stream.Valid() && stream.Index() < stream.Size()
      modifies stream
      ensures stream.Valid() && Index() == old(Index()) + 1
    {
      stream.Consume();
    }

    method Seek(index: int)
      requires 0 <= index <= stream.Size()
      modifies stream
      ensures stream.Valid() && Index() == index
    {
      stream.Seek(index);
    }

    method Mark() returns (marker: int)
      ensures marker == -1
    {
      marker := stream.Mark();
    }

    method Release(marker: int)
    {
      stream.Release(marker);
    }
  }

  /** Two inputs that differ only in letter case give the lexer the same lookahead
      at every offset, so they lex to the same token kinds. */
  lemma SameLookaheadUpToCase(x: CaseChangingCharStream, y: CaseChangingCharStream, i: int)
    requires x.stream.Valid() && y.stream.Valid()
    requires x.stream.Index() == y.stream.Index()
    requires UpperAll(x.stream.data) == UpperAll(y.stream.data)
    ensures x.LA(i) == y.LA(i)
  {
    assert |x.stream.data| == |y.stream.data|;
  }

  /** Upper-casing reaches the lookahead only: the wrapper's text is the wrapped input's. */
  lemma TextIsOriginal(x: CaseChangingCharStream)
    requires x.stream.Valid()
    ensures x.GetText(0, x.Size() - 1) == x.stream.data
  {
  }
}
