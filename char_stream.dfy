/**
 * The character stream the lexer reads: a sequence of Unicode code points and
 * a cursor. This is the part of ANTLR's code-point stream that the lexer
 * simulator and the case-changing wrapper use.
 */
module CharStreams {

  /** IntStream.EOF */
  const EOF: int := -1

  const LF: int := 10
  const CR: int := 13

  class CharStream {
    const data: seq<int>
    var position: nat

    ghost predicate Valid()
      reads this
    {
      position <= |data|
    }

    constructor (data: seq<int>)
      ensures Valid() && this.data == data && position == 0
    {
      this.data := data;
      position := 0;
    }

    /** LA(i): the i-th code point ahead of the cursor (LA(1) is the next one),
        LA(-1) the one just consumed, 0 for LA(0), EOF outside the input. */
    function LA(i: int): (c: int)
      reads this
      requires Valid()
      ensures i >= 1 && position + i - 1 < |data| ==> c == data[position + i - 1]
      ensures i >= 1 && position + i - 1 >= |data| ==> c == EOF
      ensures i <= -1 && position + i >= 0 ==> c == data[position + i]
      ensures i <= -1 && position + i < 0 ==> c == EOF
      ensures i == 0 ==> c == 0
    {
      if i == 0 then 0
      else if i < 0 then (if position + i < 0 then EOF else data[position + i])
      else if position + i - 1 >= |data| then EOF
      else data[position + i - 1]
    }

    /** The input not yet consumed. */
    function Rest(): seq<int>
      reads this
      requires Valid()
    {
      data[position..]
    }

    function Index(): int
      reads this
    {
      position
    }

    function Size(): int {
      |data|
    }

    /** consume(): a stream refuses to move past its end, so callers only
        consume while LA(1) is not EOF. */
    method Consume()
      requires Valid() && position < |data|
      modifies this
      ensures Valid() && position == old(position) + 1
      ensures Rest() == old(Rest())[1..]
    {
      position := position + 1;
    }

    method Seek(index: int)
      requires 0 <= index <= |data|
      modifies this
      ensures Valid() && position == index
    {
      position := index;
    }

    /** A code-point stream buffers everything, so marks are a no-op. */
    method Mark() returns (marker: int)
      ensures marker == -1
    {
      marker := -1;
    }

    method Release(marker: int)
    {
    }

    /** getText(interval a..b): the code points from a to b, cut at the end of the input. */
    function GetText(a: int, b: int): (text: seq<int>)
      requires 0 <= a <= b + 1
      ensures a <= |data| ==> text == data[a..if b + 1 < |data| then b + 1 else |data|]
      ensures a > |data| ==> text == []
    {
      var start := if a < |data| then a else |data|;
      var len := if b - a + 1 < |data| - start then b - a + 1 else |data| - start;
      data[start..start + len]
    }
  }
}
