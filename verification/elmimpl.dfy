/**
 * The mutable character stream of src/parser/elm-impl.ts. A `Stream` holds the source
 * text, an offset into it (in UTF-16 code units), and the row and column of that offset;
 * `take` consumes one character that satisfies a predicate, or a whole substring.
 * A character is one code unit, or two when the first is a surrogate; a newline moves
 * to the next row and back to column 1, any other character one column right.
 */
module ElmImpl {
  import opened Wrappers
  import Elm

  type CodeUnit = Elm.CodeUnit

  const Newline: CodeUnit := 0x000A

  /** The surrogate test of the source: the top five bits are 11011. */
  predicate IsSurrogate(u: CodeUnit)
  {
    u & 0xF800 == 0xD800
  }

  /** The surrogate test picks out exactly the code units 0xD800 to 0xDFFF. */
  lemma SurrogateRange(u: CodeUnit)
    ensures IsSurrogate(u) <==> 0xD800 <= u <= 0xDFFF
  {
  }

  /** Indexing a JavaScript string: `undefined` outside it. */
  function At(s: seq<CodeUnit>, k: int): (r: Option<CodeUnit>)
    ensures r.Some? <==> 0 <= k < |s|
    ensures r.Some? ==> r.value == s[k]
  {
    if 0 <= k < |s| then Some(s[k]) else None
  }

  /** Whether the code unit at `p` starts a two-unit character. */
  predicate SurrogateAt(src: seq<CodeUnit>, p: int)
  {
    0 <= p < |src| && IsSurrogate(src[p])
  }

  /** The character at `p` as `take` hands it to a predicate (cut short at the end of the text). */
  function Piece(src: seq<CodeUnit>, p: nat): (piece: seq<CodeUnit>)
    requires p < |src|
    ensures 1 <= |piece| <= 2 && piece[0] == src[p]
    ensures |piece| == 2 <==> SurrogateAt(src, p) && p + 1 < |src|
  {
    if SurrogateAt(src, p) && p + 1 < |src| then src[p..p + 2] else [src[p]]
  }

  /** Position after the character at `p`: (offset, row, column). */
  function Step(src: seq<CodeUnit>, p: nat, row: int, col: int): (nat, int, int)
  {
    if At(src, p) == Some(Newline) then (p + 1, row + 1, 1)
    else if SurrogateAt(src, p) then (p + 2, row, col + 1)
    else (p + 1, row, col + 1)
  }

  /** Position after stepping character by character from `p` until at or past `end`. */
  function Walk(src: seq<CodeUnit>, p: nat, end: int, row: int, col: int): (nat, int, int)
    decreases end - p
  {
    if end <= p then (p, row, col)
    else
      var (p', row', col') := Step(src, p, row, col);
      Walk(src, p', end, row', col')
  }

  /** The first index where `sub` and the text from `off` differ, or `|sub|`. */
  function FirstMismatch(src: seq<CodeUnit>, off: nat, sub: seq<CodeUnit>, k: nat := 0): (m: nat)
    requires off + |sub| <= |src| && k <= |sub|
    ensures k <= m <= |sub|
    ensures forall j {:trigger sub[j]} | k <= j < m :: sub[j] == src[off + j]
    ensures m < |sub| ==> sub[m] != src[off + m]
    decreases |sub| - k
  {
    if k == |sub| || sub[k] != src[off + k] then k else FirstMismatch(src, off, sub, k + 1)
  }

  /**
   * What `take(substring)` does, stated by its first mismatch: (success, offset, row,
   * column). A substring longer than the rest of the text fails and moves nothing.
   * Otherwise the stream walks through the character holding the first mismatch (or
   * to the end of the substring); a surrogate as the substring's last unit compares the
   * unit after it, which matches only when both strings end there.
   */
  function Take(src: seq<CodeUnit>, off: nat, sub: seq<CodeUnit>, row: int, col: int): (bool, nat, int, int)
  {
    if |src| < off + |sub| then (false, off, row, col)
    else
      var m := FirstMismatch(src, off, sub);
      var stop := off + if m < |sub| then m + 1 else |sub|;
      var (p, row', col') := Walk(src, off, stop, row, col);
      (m == |sub| && (off + |sub| < p ==> off + |sub| == |src|), p, row', col')
  }

  /**
   * The comparison of `take(substring)` after `i` units: no mismatch among them and,
   * past the substring's end, the text ending with the substring.
   */
  ghost predicate MatchedSoFar(src: seq<CodeUnit>, off: nat, sub: seq<CodeUnit>, i: nat)
    requires off + |sub| <= |src|
  {
    (if i < |sub| then i else |sub|) <= FirstMismatch(src, off, sub)
    && (|sub| < i ==> off + |sub| == |src|)
  }

  /**
   * One round of the comparison loop of `take(substring)`: compare the unit under the
   * cursor, step over it, and over the unit after it when it is a surrogate, comparing
   * that one too.
   */
  method CompareStep(src: seq<CodeUnit>, off: nat, sub: seq<CodeUnit>, i: nat, pos: nat, line: int, column: int,
                     isGood: bool)
    returns (i': nat, pos': nat, line': int, column': int, isGood': bool)
    requires off + |sub| <= |src| && i < |sub| && pos == off + i
    requires isGood && MatchedSoFar(src, off, sub, i)
    ensures (pos', line', column') == Step(src, pos, line, column)
    ensures pos' == off + i' && i' <= |sub| + 1
    ensures isGood' == MatchedSoFar(src, off, sub, i')
  {
    var code := src[pos];
    MatchedStep(src, off, sub, i);
    isGood' := isGood && sub[i] == src[pos];
    i', pos', line', column' := i + 1, pos + 1, line, column;
    if code == Newline {
      line' := line' + 1;
      column' := 1;
    } else {
      column' := column' + 1;
      if IsSurrogate(code) {
        isGood' := isGood' && At(sub, i') == At(src, pos');
        i' := i' + 1;
        pos' := pos' + 1;
      }
    }
  }

  /** When the comparison loop of `take(substring)` exits, its locals are what `Take` describes. */
  lemma TakeAfterLoop(src: seq<CodeUnit>, off: nat, sub: seq<CodeUnit>, row: int, col: int,
                      i: nat, pos: nat, line: int, column: int, isGood: bool, m: nat, stop: int)
    requires off + |sub| <= |src|
    requires !(isGood && i < |sub|) && i <= |sub| + 1 && pos == off + i
    requires isGood == MatchedSoFar(src, off, sub, i)
    requires m == FirstMismatch(src, off, sub) && stop == off + if m < |sub| then m + 1 else |sub|
    requires Walk(src, pos, stop, line, column) == Walk(src, off, stop, row, col)
    ensures (isGood, pos, line, column) == Take(src, off, sub, row, col)
  {
    assert stop <= pos;
    assert Walk(src, off, stop, row, col) == (pos, line, column);
  }

  /** Comparing one more unit, and the unit after it when that one is a surrogate. */
  lemma MatchedStep(src: seq<CodeUnit>, off: nat, sub: seq<CodeUnit>, i: nat)
    requires off + |sub| <= |src| && i < |sub|
    ensures MatchedSoFar(src, off, sub, i + 1) == (MatchedSoFar(src, off, sub, i) && sub[i] == src[off + i])
    ensures MatchedSoFar(src, off, sub, i + 2)
         == (MatchedSoFar(src, off, sub, i + 1) && At(sub, i + 1) == At(src, off + i + 1))
  {
  }

  /** `seek(offset)`: the column moves by the distance the offset moves. */
  function SeekTo(offset: nat, col: int, target: nat): (nat, int)
  {
    (target, col + (target - offset))
  }

  /** The stream's problem record, as in `problem(x)`. */
  datatype Problem<C, X> = Problem(context: seq<Elm.Located<C>>, row: int, col: int, problem: X)

  class Stream<C> {
    var src: seq<CodeUnit>
    var offset: nat
    var indent: int
    var context: seq<Elm.Located<C>>
    var row: int
    var col: int

    /** A stream at the start of `src`: offset 0, row 1, column 1, indent 1, no context. */
    constructor(src: seq<CodeUnit>)
      ensures this.src == src && offset == 0 && indent == 1 && context == [] && row == 1 && col == 1
    {
      this.src := src;
      offset := 0;
      indent := 1;
      context := [];
      row := 1;
      col := 1;
    }

    /** The parser state of the functional layer at the stream's position. */
    function AsState(): Elm.State<C>
      reads this
    {
      Elm.State(src, offset, indent, context, row, col)
    }

    /** `problem(x)`: the dead end the functional layer's `fromState` records here. */
    function ProblemHere<X>(x: X): (p: Problem<C, X>)
      reads this
      ensures Elm.Flatten(Elm.FromState(AsState(), x)) == [Elm.DeadEnd(p.row, p.col, p.problem, p.context)]
    {
      Problem(context, row, col, x)
    }

    /** `seek(offset)` */
    method Seek(target: nat)
      modifies this
      ensures (offset, col) == SeekTo(old(offset), old(col), target)
      ensures src == old(src) && indent == old(indent) && context == old(context) && row == old(row)
    {
      var oldOffset := offset;
      offset := target;
      col := col + (target - oldOffset);
    }

    /**
     * `take(pred)`: at the end of the text, fail; otherwise hand the next character to
     * `pred` and, when it accepts, step over it.
     */
    method TakeIf(pred: seq<CodeUnit> -> bool) returns (ok: bool)
      modifies this
      ensures ok == (old(offset) < |src| && pred(Piece(src, old(offset))))
      ensures ok ==> (offset, row, col) == Step(src, old(offset), old(row), old(col))
      ensures !ok ==> offset == old(offset) && row == old(row) && col == old(col)
      ensures src == old(src) && indent == old(indent) && context == old(context)
    {
      if |src| <= offset {
        return false;
      }
      if IsSurrogate(src[offset]) {
        var piece := if offset + 2 <= |src| then src[offset..offset + 2] else src[offset..];
        assert piece == Piece(src, offset);
        if pred(piece) {
          offset := offset + 2;
          col := col + 1;
          return true;
        } else {
          return false;
        }
      }
      if pred([src[offset]]) {
        if src[offset] == Newline {
          offset := offset + 1;
          row := row + 1;
          col := 1;
          return true;
        } else {
          offset := offset + 1;
          col := col + 1;
          return true;
        }
      }
      return false;
    }

    /** `take(substring)` */
    method TakeString(sub: seq<CodeUnit>) returns (ok: bool)
      modifies this
      ensures (ok, offset, row, col) == Take(src, old(offset), sub, old(row), old(col))
      ensures src == old(src) && indent == old(indent) && context == old(context)
    {
      var smallLength := |sub|;
      var isGood := offset + smallLength <= |src|;
      if !isGood {
        // the loop below does not run
        return false;
      }
      // the loop works on locals; the fields take their final values after it
      var pos, line, column := offset, row, col;
      ghost var m := FirstMismatch(src, pos, sub);
      ghost var stop := offset + if m < smallLength then m + 1 else smallLength;
      var i := 0;
      while isGood && i < smallLength
        modifies {}
        invariant i <= smallLength + 1 && pos == offset + i
        invariant isGood == MatchedSoFar(src, offset, sub, i)
        invariant Walk(src, pos, stop, line, column) == Walk(src, offset, stop, row, col)
        decreases smallLength - i
      {
        WalkUnfold(src, pos, stop, line, column);
        i, pos, line, column, isGood := CompareStep(src, offset, sub, i, pos, line, column, isGood);
      }
      TakeAfterLoop(src, offset, sub, row, col, i, pos, line, column, isGood, m, stop);
      offset, row, col := pos, line, column;
      return isGood;
    }
  }

  // ---- properties of `take(substring)` ----

  /** The number of newlines among some code units. */
  function Newlines(s: seq<CodeUnit>): nat
  {
    if s == [] then 0 else (if s[0] == Newline then 1 else 0) + Newlines(s[1..])
  }

  /** Walking never stops short of its end, and overshoots it by at most one unit. */
  lemma {:induction false} WalkReaches(src: seq<CodeUnit>, p: nat, end: int, row: int, col: int)
    requires p <= end
    ensures end <= Walk(src, p, end, row, col).0 <= end + 1
    decreases end - p
  {
    if p < end {
      var (p', row', col') := Step(src, p, row, col);
      if p' <= end {
        WalkReaches(src, p', end, row', col');
      }
    }
  }

  /**
   * Over text without surrogates, walking lands exactly on its end, counts the newlines
   * as rows, and, when there are none, moves the column by the number of units.
   */
  lemma {:induction false} WalkPlain(src: seq<CodeUnit>, p: nat, end: nat, row: int, col: int)
    requires p <= end <= |src|
    requires forall k | p <= k < end :: !IsSurrogate(src[k])
    ensures Walk(src, p, end, row, col).0 == end
    ensures Walk(src, p, end, row, col).1 == row + Newlines(src[p..end])
    ensures (forall k | p <= k < end :: src[k] != Newline) ==> Walk(src, p, end, row, col).2 == col + (end - p)
    decreases end - p
  {
    if p < end {
      var (p', row', col') := Step(src, p, row, col);
      assert p' == p + 1;
      WalkPlain(src, p', end, row', col');
      assert src[p..end][1..] == src[p + 1..end];
    }
  }

  /** One step of a walk that has not reached its end. */
  lemma WalkUnfold(src: seq<CodeUnit>, p: nat, end: int, row: int, col: int)
    requires p < end
    ensures var s := Step(src, p, row, col);
      Walk(src, p, end, row, col) == Walk(src, s.0, end, s.1, s.2)
  {
  }

  /** A substring that is there has no mismatch. */
  lemma MatchHasNoMismatch(src: seq<CodeUnit>, off: nat, sub: seq<CodeUnit>)
    requires off + |sub| <= |src| && src[off..off + |sub|] == sub
    ensures FirstMismatch(src, off, sub) == |sub|
  {
  }

  /** A successful take matched the whole substring, and it lies inside the text. */
  lemma TakeSound(src: seq<CodeUnit>, off: nat, sub: seq<CodeUnit>, row: int, col: int)
    requires Take(src, off, sub, row, col).0
    ensures off + |sub| <= |src| && src[off..off + |sub|] == sub
  {
    var m := FirstMismatch(src, off, sub);
    assert forall j | 0 <= j < |sub| :: src[off..off + |sub|][j] == sub[j];
  }

  /**
   * Over text without surrogates, a take of a substring that is there succeeds; it ends
   * right after the substring, one row further per newline in it.
   */
  lemma TakePlain(src: seq<CodeUnit>, off: nat, sub: seq<CodeUnit>, row: int, col: int)
    requires off + |sub| <= |src| && src[off..off + |sub|] == sub
    requires forall k | off <= k < off + |sub| :: !IsSurrogate(src[k])
    ensures var t := Take(src, off, sub, row, col);
      t.0 && t.1 == off + |sub| && t.2 == row + Newlines(sub)
  {
    WalkOverMatch(src, off, sub, row, col);
    TakeWhole(src, off, sub, row, col);
  }

  /** Over a surrogate-free substring that is there: no mismatch, and the walk lands on its end. */
  lemma WalkOverMatch(src: seq<CodeUnit>, off: nat, sub: seq<CodeUnit>, row: int, col: int)
    requires off + |sub| <= |src| && src[off..off + |sub|] == sub
    requires forall k | off <= k < off + |sub| :: !IsSurrogate(src[k])
    ensures FirstMismatch(src, off, sub) == |sub|
    ensures var w := Walk(src, off, off + |sub|, row, col);
      w.0 == off + |sub| && w.1 == row + Newlines(sub)
  {
    MatchHasNoMismatch(src, off, sub);
    WalkPlain(src, off, off + |sub|, row, col);
  }

  /** A take that meets no mismatch walks to the end of the substring. */
  lemma TakeWhole(src: seq<CodeUnit>, off: nat, sub: seq<CodeUnit>, row: int, col: int)
    requires off + |sub| <= |src| && FirstMismatch(src, off, sub) == |sub|
    requires Walk(src, off, off + |sub|, row, col).0 == off + |sub|
    ensures var w := Walk(src, off, off + |sub|, row, col);
      Take(src, off, sub, row, col) == (true, off + |sub|, w.1, w.2)
  {
  }

  /** A failed take with room for the substring has still moved past the first mismatch. */
  lemma TakeFailureMoves(src: seq<CodeUnit>, off: nat, sub: seq<CodeUnit>, row: int, col: int)
    requires off + |sub| <= |src|
    requires !Take(src, off, sub, row, col).0
    ensures off + FirstMismatch(src, off, sub) < Take(src, off, sub, row, col).1
  {
    var m := FirstMismatch(src, off, sub);
    var stop := off + if m < |sub| then m + 1 else |sub|;
    WalkReaches(src, off, stop, row, col);
  }

  /**
   * Taking a one-unit substring that is not a surrogate steps like `take` with the
   * predicate "is that unit", and succeeds exactly when that predicate holds.
   */
  lemma TakeOneUnit(src: seq<CodeUnit>, off: nat, u: CodeUnit, row: int, col: int)
    requires off < |src| && !IsSurrogate(u)
    ensures var t := Take(src, off, [u], row, col);
      t.0 == (Piece(src, off) == [u]) && (t.1, t.2, t.3) == Step(src, off, row, col)
  {
    var (p, row', col') := Step(src, off, row, col);
    assert Walk(src, p, off + 1, row', col') == (p, row', col');
  }

  /**
   * A lone surrogate that ends both the substring and the text matches, and leaves the
   * offset one past the end of the text.
   */
  lemma LoneSurrogateAtEnd()
    ensures Take([0xD800], 0, [0xD800], 1, 1) == (true, 2, 1, 2)
  {
    assert FirstMismatch([0xD800], 0, [0xD800]) == 1;
    assert Step([0xD800], 0, 1, 1) == (2, 1, 2);
  }

  /** Seeking back to where the stream was restores its column. */
  lemma SeekBack(offset: nat, col: int, target: nat)
    ensures var (o, c) := SeekTo(offset, col, target); SeekTo(o, c, offset) == (offset, col)
  {
  }

  /** Two seeks in a row are one seek to the second target. */
  lemma SeekTwice(offset: nat, col: int, a: nat, b: nat)
    ensures var (o, c) := SeekTo(offset, col, a); SeekTo(o, c, b) == SeekTo(offset, col, b)
  {
  }
}
