/**
 * CRAwareLexerATNSimulator: the lexer's line/column bookkeeping, in which
 * `\n`, a lone `\r` and the pair `\r\n` are each one line break.
 */
module LexerLines {
  import opened CharStreams

  /** A 1-based line and a 0-based column. */
  datatype Position = Position(line: int, column: int)

  /** Where one consumed character c, followed by `next`, moves the position. */
  function Step(p: Position, c: int, next: int): Position {
    if c == LF then Position(p.line + 1, 0)
    else if c == CR then (if next != LF then Position(p.line + 1, 0) else p)
    else Position(p.line, p.column + 1)
  }

  /** Position after consuming the first k code points of s, looking ahead into s. */
  function Advance(p: Position, s: seq<int>, k: nat): Position
    requires k <= |s|
    decreases k
  {
    if k == 0 then p else Advance(Step(p, s[0], if |s| > 1 then s[1] else EOF), s[1..], k - 1)
  }

  /** Position after consuming all of s. */
  function TrackAll(p: Position, s: seq<int>): Position {
    Advance(p, s, |s|)
  }

  /** The number of line terminators in s, reading `\r\n`, `\r` and `\n` as one each. */
  function CountBreaks(s: seq<int>): nat {
    if s == [] then 0
    else if |s| >= 2 && s[0] == CR && s[1] == LF then 1 + CountBreaks(s[2..])
    else if s[0] == CR || s[0] == LF then 1 + CountBreaks(s[1..])
    else CountBreaks(s[1..])
  }

  /** After the whole input the line has grown by exactly the number of line terminators. */
  lemma {:induction false} LinesCountBreaks(p: Position, s: seq<int>)
    ensures TrackAll(p, s).line == p.line + CountBreaks(s)
    decreases |s|
  {
    if s != [] {
      var la := if |s| > 1 then s[1] else EOF;
      if |s| >= 2 && s[0] == CR && s[1] == LF {
        assert Step(p, s[0], la) == p;
        var q := Step(p, LF, if |s| > 2 then s[2] else EOF);
        assert s[1..][1..] == s[2..];
        assert TrackAll(p, s) == TrackAll(p, s[1..]);
        assert TrackAll(p, s[1..]) == TrackAll(q, s[2..]);
        LinesCountBreaks(q, s[2..]);
      } else {
        assert TrackAll(p, s) == TrackAll(Step(p, s[0], la), s[1..]);
        LinesCountBreaks(Step(p, s[0], la), s[1..]);
      }
    }
  }

  /** Consumed from the start, "\r\n\r\r\n" puts its six tokens (five
      characters and EOF) on lines 1, 1, 2, 3, 3 and 4. */
  lemma CrLfExample()
    ensures var s := [CR, LF, CR, CR, LF];
      var start := Position(1, 0);
      [Advance(start, s, 0).line, Advance(start, s, 1).line, Advance(start, s, 2).line,
       Advance(start, s, 3).line, Advance(start, s, 4).line, Advance(start, s, 5).line]
      == [1, 1, 2, 3, 3, 4]
  {
    var s := [CR, LF, CR, CR, LF];
    var start := Position(1, 0);
    assert s[1..] == [LF, CR, CR, LF];
    assert s[1..][1..] == [CR, CR, LF];
    assert s[1..][1..][1..] == [CR, LF];
    assert s[1..][1..][1..][1..] == [LF];
    var p1 := Advance(start, s, 1);
    assert p1 == start;
    var p2 := Advance(start, s, 2);
    assert p2 == Position(2, 0);
    assert Advance(start, s, 3) == Position(3, 0);
    assert Advance(start, s, 4) == Position(3, 0);
    assert Advance(start, s, 5) == Position(4, 0);
  }

  class CRAwareLexerATNSimulator {
    var line: int
    var charPositionInLine: int

    function Pos(): Position
      reads this
    {
      Position(line, charPositionInLine)
    }

    /** A fresh simulator starts at line 1, column 0. */
    constructor ()
      ensures Pos() == Position(1, 0)
    {
      line := 1;
      charPositionInLine := 0;
    }

    /** consume(input): account for the next character, then move past it. */
    method Consume(input: CharStream)
      requires input.Valid() && input.Index() < input.Size()
      modifies this, input
      ensures input.Valid() && input.Index() == old(input.Index()) + 1
      ensures Pos() == Step(old(Pos()), old(input.LA(1)), old(input.LA(2)))
      ensures old(input.LA(1)) == LF ==> line == old(line) + 1 && charPositionInLine == 0
      ensures old(input.LA(1)) == CR && old(input.LA(2)) != LF ==> line == old(line) + 1 && charPositionInLine == 0
      ensures old(input.LA(1)) == CR && old(input.LA(2)) == LF ==> Pos() == old(Pos())
      ensures old(input.LA(1)) != LF && old(input.LA(1)) != CR ==>
                line == old(line) && charPositionInLine == old(charPositionInLine) + 1
      ensures TrackAll(Pos(), input.Rest()) == old(TrackAll(Pos(), input.Rest()))
    {
      ghost var rest := input.Rest();
      var curChar := input.LA(1);
      if curChar == LF {
        line := line + 1;
        charPositionInLine := 0;
      } else if curChar == CR {
        var nextChar := input.LA(2);
        if nextChar != LF {
          line := line + 1;
          charPositionInLine := 0;
        }
      } else {
        charPositionInLine := charPositionInLine + 1;
      }
      input.Consume();
      assert rest[0] == curChar;
      assert (if |rest| > 1 then rest[1] else EOF) == old(input.LA(2));
    }
  }
}
