/**
 The source cursor (`SourceScanState`): a read position over an immutable text,
 with the token-start index, the running block level and the "inside a tag"
 flag that the scanner keeps in it.  No operation fails: out of range they
 answer the NUL character or an empty slice and leave the cursor alone.
 */
module SourceScan {

  datatype Cursor = Cursor(src: seq<char>, pos: int, startIndex: int, blockLevel: int, isInTag: bool)

  ghost predicate Valid(c: Cursor) {
    0 <= c.startIndex && 0 <= c.pos <= |c.src|
  }

  /** A cursor that differs from `c` at most in its position. */
  ghost predicate Moved(c: Cursor, d: Cursor) {
    d.src == c.src && d.startIndex == c.startIndex && d.blockLevel == c.blockLevel && d.isInTag == c.isInTag
  }

  function Fresh(input: seq<char>): (c: Cursor)
    ensures Valid(c) && c.src == input
    ensures c.pos == 0 && c.startIndex == 0 && c.blockLevel == 0 && !c.isInTag
    ensures IsAtEnd(c) <==> |input| == 0
  {
    Cursor(input, 0, 0, 0, false)
  }

  predicate IsAtEnd(c: Cursor) {
    c.pos >= |c.src|
  }

  function Advance(c: Cursor): (r: (char, Cursor))
    requires Valid(c)
    ensures Valid(r.1) && Moved(c, r.1)
    ensures IsAtEnd(c) ==> r == ('\0', c)
    ensures !IsAtEnd(c) ==> r.0 == c.src[c.pos] && r.1.pos == c.pos + 1
  {
    if !IsAtEnd(c) then (c.src[c.pos], c.(pos := c.pos + 1)) else ('\0', c)
  }

  /** `BackTrack(toPosition)`: only positions inside [startIndex, pos] and before the end are accepted. */
  function BackTrack(c: Cursor, toPosition: int): (r: (char, Cursor))
    requires Valid(c)
    ensures Valid(r.1) && Moved(c, r.1)
    ensures toPosition > c.pos || toPosition < c.startIndex || toPosition >= |c.src| ==> r == ('\0', c)
    ensures c.startIndex <= toPosition <= c.pos && toPosition < |c.src| ==>
              r.0 == c.src[toPosition] && r.1.pos == toPosition
    ensures r.1.pos <= c.pos && (r.1.pos == c.pos || c.startIndex <= r.1.pos)
  {
    if toPosition > c.pos then ('\0', c)
    else if toPosition < c.startIndex then ('\0', c)
    else if toPosition >= |c.src| then ('\0', c)
    else (c.src[toPosition], c.(pos := toPosition))
  }

  /** `Advance(count)`: all or nothing. */
  function AdvanceBy(c: Cursor, count: int): (r: Cursor)
    requires Valid(c)
    ensures Moved(c, r)
    ensures !IsAtEnd(c) && c.pos + count <= |c.src| ==> r.pos == c.pos + count
    ensures IsAtEnd(c) || c.pos + count > |c.src| ==> r == c
    ensures 0 <= count ==> Valid(r)
  {
    if !IsAtEnd(c) && c.pos + count <= |c.src| then c.(pos := c.pos + count) else c
  }

  function LookAhead(c: Cursor, count: nat): (r: seq<char>)
    requires Valid(c)
    ensures c.pos + count <= |c.src| ==> r == c.src[c.pos..c.pos + count]
    ensures c.pos + count > |c.src| ==> r == []
  {
    if c.pos + count <= |c.src| then c.src[c.pos..c.pos + count] else []
  }

  function PeekNext(c: Cursor): (r: char)
    requires Valid(c)
    ensures r == Advance(c).0
  {
    if c.pos + 1 <= |c.src| then c.src[c.pos] else '\0'
  }

  function PeekNextUnsafe(c: Cursor): (r: char)
    requires Valid(c) && !IsAtEnd(c)
    ensures r == PeekNext(c)
  {
    c.src[c.pos]
  }

  /** `count` successive calls of `Advance`: the characters they return and the final cursor. */
  function AdvanceTimes(c: Cursor, count: nat): (r: (seq<char>, Cursor))
    requires Valid(c)
    ensures Valid(r.1) && Moved(c, r.1) && |r.0| == count
    decreases count
  {
    if count == 0 then ([], c)
    else
      var (ch, c1) := Advance(c);
      var (rest, c2) := AdvanceTimes(c1, count - 1);
      ([ch] + rest, c2)
  }

  /** `LookAhead(n)`, when it answers anything, predicts the next `n` advances, and moves nothing. */
  lemma {:induction false} LookAheadPredictsAdvances(c: Cursor, count: nat)
    requires Valid(c) && c.pos + count <= |c.src|
    ensures LookAhead(c, count) == AdvanceTimes(c, count).0
    ensures AdvanceTimes(c, count).1.pos == c.pos + count
    decreases count
  {
    if count > 0 {
      var c1 := Advance(c).1;
      LookAheadPredictsAdvances(c1, count - 1);
      assert c.src[c.pos..c.pos + count] == [c.src[c.pos]] + c1.src[c1.pos..c1.pos + count - 1];
    }
  }

  /** `BackTrack` to the position just consumed undoes an `Advance`. */
  lemma BackTrackUndoesAdvance(c: Cursor)
    requires Valid(c) && !IsAtEnd(c) && c.startIndex <= c.pos
    ensures BackTrack(Advance(c).1, c.pos) == (c.src[c.pos], c)
  {
  }

  /** Once at the end, `Advance` keeps answering NUL and never moves. */
  lemma {:induction false} AdvanceAtEndIsStuck(c: Cursor, count: nat)
    requires Valid(c) && IsAtEnd(c)
    ensures AdvanceTimes(c, count).1 == c
    ensures forall k :: 0 <= k < count ==> AdvanceTimes(c, count).0[k] == '\0'
    decreases count
  {
    if count > 0 {
      AdvanceAtEndIsStuck(c, count - 1);
    }
  }
}
