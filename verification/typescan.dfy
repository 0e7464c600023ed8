/**
 * The bracket-depth scanner that reads a type annotation as raw token text: it
 * consumes tokens until, outside all brackets, it meets one of the stop operators
 * or a string, or the stream ends.
 */
module TypeScan {
  import opened Wrappers
  import opened Strings
  import opened Tokenizer
  import opened Streams

  predicate Opens(t: Token) { t.kind == OP && (t.text == "[" || t.text == "(") }
  predicate Closes(t: Token) { t.kind == OP && (t.text == "]" || t.text == ")") }

  /** The bracket depth after reading `t`; closing at depth 0 stays at 0. */
  function NextDepth(t: Token, depth: int): (d: int)
    requires depth >= 0
    ensures d >= 0
    ensures Opens(t) ==> d == depth + 1
    ensures Closes(t) && depth > 0 ==> d == depth - 1
    ensures Closes(t) && depth == 0 ==> d == 0
    ensures !Opens(t) && !Closes(t) ==> d == depth
  {
    if Opens(t) then depth + 1
    else if Closes(t) then (if depth - 1 > 0 then depth - 1 else 0)
    else depth
  }

  /** Whether the scan stops before `t`, given the depth before it. */
  predicate StopsAt(t: Token, depth: int, stops: set<string>)
    requires depth >= 0
  {
    if t.kind == OP then NextDepth(t, depth) == 0 && t.text in stops
    else depth == 0 && t.kind == STRING
  }

  /** Where a scan ends, the texts it consumed, and the depth it stopped at. */
  datatype Scan = Scan(end: nat, parts: seq<string>, depth: int)

  function ScanFrom(toks: seq<Token>, i: nat, depth: int, stops: set<string>): (r: Scan)
    requires depth >= 0
    ensures r.end >= i && r.depth >= 0
    ensures i < |toks| ==> r.end <= |toks|
    ensures |r.parts| == r.end - i
    ensures r.end == i || r.end <= |toks|
    ensures forall k :: 0 <= k < |r.parts| ==> r.parts[k] == toks[i + k].text
    ensures r.end >= |toks| || StopsAt(toks[r.end], r.depth, stops)
    decreases if i < |toks| then |toks| - i else 0
  {
    if i >= |toks| || StopsAt(toks[i], depth, stops) then Scan(i, [], depth)
    else
      var r := ScanFrom(toks, i + 1, NextDepth(toks[i], depth), stops);
      Scan(r.end, [toks[i].text] + r.parts, r.depth)
  }

  /**
   * The loop of `typeParser`: `None` (a failure that consumed nothing) when no token
   * was taken, otherwise the taken texts glued together.
   */
  method ScanTypes(s: Stream<Token>, stops: set<string>) returns (r: Option<string>)
    modifies s
    ensures var sc := ScanFrom(s.content, old(s.offset), 0, stops);
      if |sc.parts| == 0 then r.None? && s.offset == old(s.offset)
      else r == Some(Join(sc.parts, "")) && s.offset == sc.end
  {
    var start := s.offset;
    var depth := 0;
    var parts: seq<string> := [];
    ghost var whole := ScanFrom(s.content, start, 0, stops);
    while !s.Done()
      invariant s.offset >= start && depth >= 0
      invariant var sc := ScanFrom(s.content, s.offset, depth, stops);
        whole == Scan(sc.end, parts + sc.parts, sc.depth)
      decreases |s.content| - s.offset
    {
      var token := s.Peek().value;
      ghost var i, before := s.offset, depth;
      assert token == s.content[i];
      if token.kind == OP {
        if token.text == "[" || token.text == "(" {
          depth := depth + 1;
        } else if token.text == "]" || token.text == ")" {
          depth := if depth - 1 > 0 then depth - 1 else 0;
        }
        if depth == 0 && token.text in stops {
          assert StopsAt(token, before, stops);
          assert parts + [] == parts;
          break;
        }
      } else if depth == 0 && token.kind == STRING {
        assert StopsAt(token, before, stops);
        assert parts + [] == parts;
        break;
      }
      assert depth == NextDepth(token, before);
      var _ := s.Next();
      ghost var rest := ScanFrom(s.content, i + 1, depth, stops);
      assert ScanFrom(s.content, i, before, stops) == Scan(rest.end, [token.text] + rest.parts, rest.depth);
      assert parts + ([token.text] + rest.parts) == (parts + [token.text]) + rest.parts;
      parts := parts + [token.text];
    }
    assert whole.end == s.offset && whole.parts == parts;
    if |parts| == 0 {
      s.Seek(start);
      return None;
    }
    return Some(Join(parts, ""));
  }

  /** A successful scan stops at the end, or before a stop operator or a string outside all brackets. */
  lemma ScanStops(toks: seq<Token>, i: nat, stops: set<string>)
    requires i < |toks|
    ensures var r := ScanFrom(toks, i, 0, stops);
      r.end == |toks| ||
      (r.depth == 0 && toks[r.end].kind == STRING) ||
      (toks[r.end].kind == OP && toks[r.end].text in stops && NextDepth(toks[r.end], r.depth) == 0)
  {
  }
}
