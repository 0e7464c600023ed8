/**
 * A cursor over a fixed sequence of elements. Reading past the end gives
 * `undefined` in the source; here it gives `None`.
 */
module Streams {
  import opened Wrappers

  /** What `error()` throws: the offset and the element found there. */
  datatype SyntaxError<S> = SyntaxError(offset: nat, found: Option<S>)

  /** The element at `i`, or `None` past the end. */
  function At<S>(content: seq<S>, i: nat): (t: Option<S>)
    ensures i < |content| <==> t.Some?
    ensures i < |content| ==> t.value == content[i]
  {
    if i < |content| then Some(content[i]) else None
  }

  class Stream<S> {
    const content: seq<S>
    var offset: nat

    constructor(content: seq<S>)
      ensures this.content == content && offset == 0
    {
      this.content := content;
      offset := 0;
    }

    /** The element under the cursor, if any. */
    function Peek(): (t: Option<S>)
      reads this
      ensures t == At(content, offset)
    {
      At(content, offset)
    }

    /** Returns the element under the cursor and moves past it, even at the end. */
    method Next() returns (t: Option<S>)
      modifies this
      ensures t == old(Peek())
      ensures offset == old(offset) + 1
    {
      t := At(content, offset);
      offset := offset + 1;
    }

    method Seek(index: nat)
      modifies this
      ensures offset == index
    {
      offset := index;
    }

    /** The cursor is at or past the end. */
    predicate Done()
      reads this
    {
      offset >= |content|
    }

    /** The error that `error()` throws; it carries the current position and element. */
    function Error(): (e: SyntaxError<S>)
      reads this
      ensures e.offset == offset && e.found == Peek()
    {
      SyntaxError(offset, Peek())
    }
  }
}
