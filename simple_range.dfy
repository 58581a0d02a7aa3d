/**
 * SimpleRange: a 0-based source region (start line and column, end line and
 * column), built from ANTLR tokens, with a containment test.
 */
module SimpleRanges {

  /** ANTLR's Token.EOF token type. */
  const EOF: int := -1

  /** The parts of an ANTLR token that the core reads: its type, its text, its
      1-based line and its 0-based column. */
  datatype Token = Token(tokenType: int, text: string, line: int, charPositionInLine: int)

  datatype SimpleRange = SimpleRange(startLine: int, startCharacter: int, endLine: int, endCharacter: int)

  /** Position (l1, c1) is at or before position (l2, c2). */
  predicate PosLe(l1: int, c1: int, l2: int, c2: int) {
    l1 < l2 || (l1 == l2 && c1 <= c2)
  }

  /** containsRange: the second range lies inside the first, compared as
      (line, column) pairs at both ends. */
  function ContainsRange(bigger: SimpleRange, smaller: SimpleRange): (b: bool)
    ensures b <==> (PosLe(bigger.startLine, bigger.startCharacter, smaller.startLine, smaller.startCharacter)
                 && PosLe(smaller.endLine, smaller.endCharacter, bigger.endLine, bigger.endCharacter))
  {
    if bigger.startLine > smaller.startLine || bigger.endLine < smaller.endLine then false
    else if bigger.startLine == smaller.startLine && bigger.startCharacter > smaller.startCharacter then false
    else bigger.endLine != smaller.endLine || bigger.endCharacter >= smaller.endCharacter
  }

  lemma ContainsRangeReflexive(r: SimpleRange)
    ensures ContainsRange(r, r)
  {
  }

  lemma ContainsRangeTransitive(a: SimpleRange, b: SimpleRange, c: SimpleRange)
    requires ContainsRange(a, b) && ContainsRange(b, c)
    ensures ContainsRange(a, c)
  {
  }

  /** Two overlapping ranges where neither holds the other, and a range that
      encloses them both. */
  lemma ContainsRangeExamples()
    ensures !ContainsRange(SimpleRange(1, 2, 3, 4), SimpleRange(2, 3, 4, 5))
    ensures !ContainsRange(SimpleRange(2, 3, 4, 5), SimpleRange(1, 2, 3, 4))
    ensures !ContainsRange(SimpleRange(1, 2, 3, 4), SimpleRange(0, 0, 6, 6))
    ensures !ContainsRange(SimpleRange(2, 3, 4, 5), SimpleRange(0, 0, 6, 6))
    ensures ContainsRange(SimpleRange(0, 0, 6, 6), SimpleRange(1, 2, 3, 4))
    ensures ContainsRange(SimpleRange(0, 0, 6, 6), SimpleRange(2, 3, 4, 5))
  {
  }

  /** The column just past a token's text; an EOF token has no extent. */
  function EndColumn(t: Token): int {
    if t.tokenType == EOF then t.charPositionInLine else t.charPositionInLine + |t.text|
  }

  /** create(startToken, endToken): lines become 0-based, the start column is
      kept and the end column is just past the end token's text. */
  function Create(startToken: Token, endToken: Token): (r: SimpleRange)
    ensures r.startLine == startToken.line - 1 && r.startCharacter == startToken.charPositionInLine
    ensures r.endLine == endToken.line - 1
    ensures endToken.tokenType == EOF ==> r.endCharacter == endToken.charPositionInLine
    ensures endToken.tokenType != EOF ==> r.endCharacter == endToken.charPositionInLine + |endToken.text|
  {
    var endChar := if endToken.tokenType == EOF then endToken.charPositionInLine
                   else endToken.charPositionInLine + |endToken.text|;
    SimpleRange(startToken.line - 1, startToken.charPositionInLine, endToken.line - 1, endChar)
  }

  /** create(token) is create(token, token). */
  function CreateFromToken(token: Token): (r: SimpleRange)
    ensures r == Create(token, token)
  {
    Create(token, token)
  }

  /** The range of one token sits on its line and is as wide as its text;
      an EOF token gives an empty range. */
  lemma TokenRangeWidth(t: Token)
    ensures var r := CreateFromToken(t);
      r.startLine == r.endLine == t.line - 1
      && r.endCharacter - r.startCharacter == (if t.tokenType == EOF then 0 else |t.text|)
  {
  }

  /** create(tokens): the all-zero range for no tokens, else first to last token. */
  function CreateFromTokens(tokens: seq<Token>): (r: SimpleRange)
    ensures tokens == [] ==> IsEmpty(r)
    ensures tokens != [] ==> r == Create(tokens[0], tokens[|tokens| - 1])
  {
    if tokens == [] then SimpleRange(0, 0, 0, 0)
    else Create(tokens[0], tokens[|tokens| - 1])
  }

  /** create(startLine, startCharacter, endLine, endCharacter) */
  function CreateRange(startLine: int, startCharacter: int, endLine: int, endCharacter: int): (r: SimpleRange)
    ensures r.startLine == startLine && r.startCharacter == startCharacter
    ensures r.endLine == endLine && r.endCharacter == endCharacter
  {
    SimpleRange(startLine, startCharacter, endLine, endCharacter)
  }

  /** create(lineNo, startCharacter, endCharacter): a range on one line. */
  function CreateLine(lineNo: int, startCharacter: int, endCharacter: int): (r: SimpleRange)
    ensures r.startLine == lineNo && r.endLine == lineNo
    ensures r.startCharacter == startCharacter && r.endCharacter == endCharacter
  {
    SimpleRange(lineNo, startCharacter, lineNo, endCharacter)
  }

  /** isEmpty: all four coordinates are zero. */
  predicate IsEmpty(r: SimpleRange)
    ensures IsEmpty(r) <==> r == SimpleRange(0, 0, 0, 0)
  {
    r.startLine == 0 && r.startCharacter == 0 && r.endLine == 0 && r.endCharacter == 0
  }

  /** Tokens in source order: each one ends at or before the next one starts. */
  predicate InSourceOrder(tokens: seq<Token>) {
    forall i :: 0 <= i < |tokens| - 1 ==>
      PosLe(tokens[i].line - 1, EndColumn(tokens[i]), tokens[i + 1].line - 1, tokens[i + 1].charPositionInLine)
  }

  lemma {:induction false} SourceOrderStarts(tokens: seq<Token>, i: nat)
    requires InSourceOrder(tokens) && i < |tokens|
    ensures PosLe(tokens[0].line - 1, tokens[0].charPositionInLine, tokens[i].line - 1, tokens[i].charPositionInLine)
  {
    if i > 0 {
      SourceOrderStarts(tokens, i - 1);
      var t := tokens[i - 1];
      assert PosLe(t.line - 1, t.charPositionInLine, t.line - 1, EndColumn(t));
    }
  }

  lemma {:induction false} SourceOrderEnds(tokens: seq<Token>, i: nat)
    requires InSourceOrder(tokens) && i < |tokens|
    ensures var last := tokens[|tokens| - 1];
      PosLe(tokens[i].line - 1, EndColumn(tokens[i]), last.line - 1, EndColumn(last))
    decreases |tokens| - i
  {
    if i < |tokens| - 1 {
      SourceOrderEnds(tokens, i + 1);
      var t := tokens[i + 1];
      assert PosLe(t.line - 1, t.charPositionInLine, t.line - 1, EndColumn(t));
    }
  }

  /** The range of a token list in source order contains the range of each of its tokens. */
  lemma TokensRangeContainsEach(tokens: seq<Token>, i: nat)
    requires InSourceOrder(tokens) && i < |tokens|
    ensures ContainsRange(CreateFromTokens(tokens), CreateFromToken(tokens[i]))
  {
    SourceOrderStarts(tokens, i);
    SourceOrderEnds(tokens, i);
  }
}
