/**
 * The earlier, token-only combinator library: a `TokenStream` that is done at the
 * end marker, sequencing that concatenates values into flat lists (`then`) or keeps
 * one side (`ignoreThen`, `thenIgnore`), and the same `try`/`commit` discipline as
 * the engine in `Base`, whose states, outcomes and `backtrack` it shares.
 */
module Combinators {
  import opened Wrappers
  import opened Tokenizer
  import opened Merging
  import opened Streams
  import Base

  /** `concat`: arrays are spliced in, anything else is one element. */
  function Concat(a: Value, b: Value): (r: Value)
    ensures r.Arr? && |r.items| == Width(a) + Width(b)
    ensures r.items[..Width(a)] == Contribution(a)
    ensures r.items[Width(a)..] == Contribution(b)
  {
    var items := Contribution(a) + Contribution(b);
    assert items[..Width(a)] == Contribution(a);
    assert items[Width(a)..] == Contribution(b);
    Arr(items)
  }

  /** Concatenating three values gives the same flat list however it is grouped. */
  lemma ConcatAssociative(a: Value, b: Value, c: Value)
    ensures Concat(Concat(a, b), c) == Concat(a, Concat(b, c))
  {
    assert Contribution(Concat(a, b)) == Contribution(a) + Contribution(b);
    assert Contribution(Concat(b, c)) == Contribution(b) + Contribution(c);
    assert Contribution(a) + (Contribution(b) + Contribution(c))
        == (Contribution(a) + Contribution(b)) + Contribution(c);
  }

  /** Which operand values a sequence keeps. */
  datatype Keep = Both | Left | Right

  datatype Parser =
    | Token(kind: TokenType)        // `Parser.token(type)`
    | Literal(text: string)         // a parser written directly: the next token, if a name with this text
    | Or(p: Parser, q: Parser)
    | Seq(p: Parser, q: Parser, keep: Keep)
    | Maybe(p: Parser)
    | Many(p: Parser)
    | Commit(p: Parser)
    | Ahead(p: Parser)              // the lookahead parser built by `with`
    | NotAhead(p: Parser)           // the lookahead parser built by `without`

  function Then(p: Parser, q: Parser): Parser { Seq(p, q, Both) }
  function IgnoreThen(p: Parser, q: Parser): Parser { Seq(p, q, Right) }
  function ThenIgnore(p: Parser, q: Parser): Parser { Seq(p, q, Left) }

  /** `p.some()`: `p`, then `many` of it. */
  function SomeOf(p: Parser): Parser { Then(p, Many(p)) }

  /** `sep.join(item)`: `item`, then any number of `sep item` keeping only the items. */
  function SepBy(sep: Parser, item: Parser): Parser { Then(item, Many(IgnoreThen(sep, item))) }

  function With(p: Parser, q: Parser): Parser { ThenIgnore(p, Ahead(q)) }
  function Without(p: Parser, q: Parser): Parser { ThenIgnore(p, NotAhead(q)) }

  /** The value a sequence returns from its two operands' values. */
  function Combine(keep: Keep, a: Value, b: Value): Value
  {
    match keep
    case Both => Concat(a, b)
    case Left => a
    case Right => b
  }

  /** A token list as `tokenize` returns it: one end marker, at the end. */
  ghost predicate Ready(toks: seq<Token>, st: Base.State)
  {
    EndsWithOneMarker(toks) && st.offset < |toks|
  }

  /** `stream.done()`: the token under the cursor is the end marker. */
  predicate AtEnd(toks: seq<Token>, st: Base.State)
    requires st.offset < |toks|
  {
    toks[st.offset].kind == ENDMARKER
  }

  /**
   * What running `p` returns and the state it leaves. A normal result never moves
   * the cursor past the end marker, so `done()` and `peek()` always find a token.
   */
  function Eval(p: Parser, toks: seq<Tokenizer.Token>, st: Base.State): (r: Base.Res)
    requires Ready(toks, st)
    ensures Base.Normal(r.out) ==> Base.Advances(toks, st, r.st) && r.st.offset < |toks|
    decreases Base.Rem(toks, st), Base.Rank(st), p, 0
  {
    match p
    case Token(kind) =>
      if AtEnd(toks, st) then Base.Res(Base.Failure(false), st)
      else if toks[st.offset].kind == kind then
        Base.Res(Base.Success(Tok(toks[st.offset])), st.(offset := st.offset + 1))
      else Base.TryBacktrack(toks, st.(offset := st.offset + 1), st.offset, false)
    case Literal(text) =>
      var t := toks[st.offset];
      if t.kind == NAME && t.text == text then
        Base.Res(Base.Success(Tok(t)), st.(offset := st.offset + 1))
      else Base.TryBacktrack(toks, st.(offset := st.offset + 1), st.offset, false)
    case Or(a, b) =>
      var r := Eval(a, toks, st);
      if r.out.Failure? then Eval(b, toks, r.st) else r
    case Seq(a, b, keep) =>
      var r1 := Eval(a, toks, st);
      if r1.out.Failure? then Base.TryBacktrack(toks, r1.st, st.offset, r1.out.matched)
      else if !r1.out.Success? then r1
      else
        var r2 := Eval(b, toks, r1.st);
        if r2.out.Failure? then Base.TryBacktrack(toks, r2.st, st.offset, true)
        else if !r2.out.Success? then r2
        else Base.Res(Base.Success(Combine(keep, r1.out.value, r2.out.value)), r2.st)
    case Maybe(q) =>
      var r := Eval(q, toks, st);
      if r.out.Failure? then Base.Res(Base.Success(Null), r.st) else r
    case Many(q) =>
      ManyLoop(q, toks, st, [])
    case Commit(q) =>
      var r := Eval(q, toks, st);
      if r.out.Failure? && r.out.matched then Base.Res(Base.Fatal(Base.ErrorAt(toks, r.st.offset)), r.st)
      else if r.out.Success? then Base.Res(r.out, r.st.(eager := true))
      else r
    case Ahead(q) =>
      var r := Eval(q, toks, st);
      if Base.Normal(r.out) then Base.Res(r.out, r.st.(offset := st.offset)) else r
    case NotAhead(q) =>
      var r := Eval(q, toks, st);
      if Base.Normal(r.out) then
        Base.Res(if r.out.Success? then Base.Failure(false) else Base.Success(Null), r.st.(offset := st.offset))
      else r
  }

  /** The loop of `many` after collecting `acc`; it stops at the first failure. */
  function ManyLoop(q: Parser, toks: seq<Tokenizer.Token>, st: Base.State, acc: seq<Value>): (r: Base.Res)
    requires Ready(toks, st)
    ensures Base.Normal(r.out) ==> Base.Advances(toks, st, r.st) && r.st.offset < |toks|
    ensures !r.out.Failure?
    ensures r.out.Success? ==>
      r.out.value.Arr? && |r.out.value.items| >= |acc| && r.out.value.items[..|acc|] == acc
    decreases Base.Rem(toks, st), Base.Rank(st), q, 1
  {
    var r := Eval(q, toks, st);
    if r.out.Failure? then Base.Res(Base.Success(Arr(acc)), r.st)
    else if !r.out.Success? then r
    else if r.st == st then Base.Res(Base.Diverge, st)
    else
      var next := ManyLoop(q, toks, r.st, acc + [r.out.value]);
      assert next.out.Success? ==> next.out.value.items[..|acc|] == (acc + [r.out.value])[..|acc|];
      next
  }

  class TokenStream {
    const tokens: seq<Tokenizer.Token>
    var offset: nat
    var eager: bool

    /** The stream over an already tokenized text; `Open` tokenizes first. */
    constructor(tokens: seq<Tokenizer.Token>)
      ensures this.tokens == tokens && offset == 0 && !eager
    {
      this.tokens := tokens;
      offset := 0;
      eager := false;
    }

    function Snapshot(): Base.State
      reads this
    {
      Base.State(offset, eager)
    }

    ghost predicate Valid()
      reads this
    {
      Ready(tokens, Snapshot())
    }

    /** `peek()`: the token under the cursor, `undefined` past the end. */
    function Peek(): (t: Option<Tokenizer.Token>)
      reads this
      ensures t == At(tokens, offset)
    {
      At(tokens, offset)
    }

    /** `done()`, where the cursor is on a token. */
    predicate Done()
      requires offset < |tokens|
      reads this
    {
      tokens[offset].kind == ENDMARKER
    }

    method Next() returns (t: Option<Tokenizer.Token>)
      modifies this
      ensures t == old(Peek()) && offset == old(offset) + 1 && eager == old(eager)
    {
      t := At(tokens, offset);
      offset := offset + 1;
    }

    /** `backtrack(matched)` inside a `try` entered at `saved`. */
    method Backtrack(saved: nat, matched: bool) returns (out: Base.Outcome)
      modifies this
      ensures var r := Base.TryBacktrack(tokens, old(Snapshot()), saved, matched);
        out == r.out && Snapshot() == r.st
    {
      if eager && matched {
        return Base.Fatal(SyntaxError(offset, Peek()));
      }
      offset := saved;
      return Base.Failure(matched);
    }
  }

  /** `new TokenStream(content)`: a lexing error is thrown. */
  method Open(content: string) returns (r: Result<TokenStream, LexError>)
    ensures Lex(content).Err? ==> r == Err(Lex(content).error)
    ensures Lex(content).Ok? ==>
      && r.Ok? && fresh(r.value) && r.value.tokens == Lex(content).value
      && r.value.Snapshot() == Base.State(0, false) && r.value.Valid()
  {
    var toks := Tokenize(content);
    if toks.Err? {
      return Err(toks.error);
    }
    LexEndsWithOneMarker(content);
    var s := new TokenStream(toks.value);
    return Ok(s);
  }

  /** `p.parse(stream)`: runs `p` as `Eval` describes. */
  method Run(p: Parser, s: TokenStream) returns (out: Base.Outcome)
    requires s.Valid()
    modifies s
    ensures var r := Eval(p, s.tokens, old(s.Snapshot()));
      out == r.out && (Base.Normal(out) ==> s.Snapshot() == r.st)
    decreases Base.Rem(s.tokens, s.Snapshot()), Base.Rank(s.Snapshot()), p, 2
  {
    match p
    case Token(kind) =>
      if s.Done() {
        return Base.Failure(false);
      }
      var saved := s.offset;
      var token := s.Next();
      if token.value.kind == kind {
        return Base.Success(Tok(token.value));
      }
      out := s.Backtrack(saved, false);
    case Literal(text) =>
      var saved := s.offset;
      var token := s.Next();
      if token.value.kind == NAME && token.value.text == text {
        return Base.Success(Tok(token.value));
      }
      out := s.Backtrack(saved, false);
    case Or(a, b) =>
      out := Run(a, s);
      if out.Failure? {
        out := Run(b, s);
      }
    case Seq(a, b, keep) => out := RunSeq(a, b, keep, s);
    case Maybe(q) =>
      out := Run(q, s);
      if out.Failure? {
        out := Base.Success(Null);
      }
    case Many(q) => out := RunMany(q, s);
    case Commit(q) =>
      out := Run(q, s);
      if out.Failure? && out.matched {
        out := Base.Fatal(SyntaxError(s.offset, s.Peek()));
      } else if out.Success? {
        s.eager := true;
      }
    case Ahead(q) =>
      var offset := s.offset;
      out := Run(q, s);
      if Base.Normal(out) {
        s.offset := offset;
      }
    case NotAhead(q) =>
      var offset := s.offset;
      var result := Run(q, s);
      if !Base.Normal(result) {
        return result;
      }
      s.offset := offset;
      out := if result.Success? then Base.Failure(false) else Base.Success(Null);
  }

  /** `then`, `ignoreThen` and `thenIgnore`: both parsers in sequence inside one `try`. */
  method RunSeq(a: Parser, b: Parser, keep: Keep, s: TokenStream) returns (out: Base.Outcome)
    requires s.Valid()
    modifies s
    ensures var r := Eval(Seq(a, b, keep), s.tokens, old(s.Snapshot()));
      out == r.out && (Base.Normal(out) ==> s.Snapshot() == r.st)
    decreases Base.Rem(s.tokens, s.Snapshot()), Base.Rank(s.Snapshot()), Seq(a, b, keep), 1
  {
    var saved := s.offset;
    var resultT := Run(a, s);
    if resultT.Failure? {
      out := s.Backtrack(saved, resultT.matched);
      return;
    }
    if !resultT.Success? {
      return resultT;
    }
    var resultU := Run(b, s);
    if resultU.Failure? {
      out := s.Backtrack(saved, true);
      return;
    }
    if !resultU.Success? {
      return resultU;
    }
    return Base.Success(Combine(keep, resultT.value, resultU.value));
  }

  /** `q.many()`; where the source would loop forever this returns `Diverge`. */
  method RunMany(q: Parser, s: TokenStream) returns (out: Base.Outcome)
    requires s.Valid()
    modifies s
    ensures var r := Eval(Many(q), s.tokens, old(s.Snapshot()));
      out == r.out && (Base.Normal(out) ==> s.Snapshot() == r.st)
    decreases Base.Rem(s.tokens, s.Snapshot()), Base.Rank(s.Snapshot()), Many(q), 1
  {
    ghost var toks := s.tokens;
    ghost var entry := s.Snapshot();
    var results: seq<Value> := [];
    while true
      invariant s.Valid() && Base.Advances(toks, entry, s.Snapshot())
      invariant ManyLoop(q, toks, entry, []) == ManyLoop(q, toks, s.Snapshot(), results)
      decreases Base.Rem(toks, s.Snapshot()), Base.Rank(s.Snapshot())
    {
      var before := s.Snapshot();
      var result := Run(q, s);
      if result.Failure? {
        return Base.Success(Arr(results));
      }
      if !result.Success? {
        return result;
      }
      if s.Snapshot() == before {
        return Base.Diverge;
      }
      results := results + [result.value];
    }
  }

  /** `p.parse(content)`: a fresh stream over the tokens of `content`. */
  method ParseText(p: Parser, content: string) returns (r: Result<Base.Outcome, LexError>)
    ensures Lex(content).Err? ==> r == Err(Lex(content).error)
    ensures Lex(content).Ok? ==>
      var toks := Lex(content).value;
      EndsWithOneMarker(toks) && r == Ok(Eval(p, toks, Base.State(0, false)).out)
  {
    LexEndsWithOneMarker(content);
    var stream := Open(content);
    if stream.Err? {
      return Err(stream.error);
    }
    var out := Run(p, stream.value);
    return Ok(out);
  }
}
