/**
 * The parser-combinator engine over a token stream with an `eager` (cut) flag.
 *
 * A parser is a value of the datatype `Parser`; `Eval` says what running it does
 * to the stream state (offset and eager flag) and what it returns, and the method
 * `Run` interprets a parser against a mutable `ParseStream` and is proved to do
 * exactly what `Eval` says. A thrown syntax error is the outcome `Fatal`; `many`
 * over a parser that succeeds without changing the state never returns in the
 * source, and that is the outcome `Diverge`.
 */
module Base {
  import opened Wrappers
  import opened Strings
  import opened Tokenizer
  import opened Merging
  import opened Streams
  import TypeScan

  /** `ParseResult`, plus the two ways a parse can end abruptly. */
  datatype Outcome =
    | Success(value: Value)
    | Failure(matched: bool)
    | Fatal(error: SyntaxError<Token>)
    | Diverge

  /** The parse returned a `ParseResult` rather than ending abruptly. */
  predicate Normal(o: Outcome) { o.Success? || o.Failure? }

  /** The mutable part of a `ParseStream`. */
  datatype State = State(offset: nat, eager: bool)

  /** What a parse returns and the state it leaves behind. */
  datatype Res = Res(out: Outcome, st: State)

  class ParseStream {
    const base: Stream<Token>
    var eager: bool

    constructor(content: seq<Token>)
      ensures fresh(base) && base.content == content
      ensures base.offset == 0 && !eager
    {
      base := new Stream(content);
      eager := false;
    }

    function Snapshot(): State
      reads this, base
    {
      State(base.offset, eager)
    }

    /** The `backtrack` callback of `try`, for a `try` entered at offset `saved`. */
    method Backtrack(saved: nat, matched: bool) returns (out: Outcome)
      modifies base
      ensures var r := TryBacktrack(base.content, old(Snapshot()), saved, matched);
        out == r.out && Snapshot() == r.st
    {
      if eager && matched {
        return Fatal(base.Error());
      }
      base.Seek(saved);
      return Failure(matched);
    }
  }

  /** The error `error()` throws at `offset`. */
  function ErrorAt(toks: seq<Token>, offset: nat): SyntaxError<Token>
  {
    SyntaxError(offset, At(toks, offset))
  }

  /**
   * `backtrack(matched)` in a `try` entered at `saved`: fatal when the stream is
   * eager and the failure matched input, otherwise back to `saved` with `failure(matched)`.
   */
  function TryBacktrack(toks: seq<Token>, st: State, saved: nat, matched: bool): Res
  {
    if st.eager && matched then Res(Fatal(ErrorAt(toks, st.offset)), st)
    else Res(Failure(matched), st.(offset := saved))
  }

  /** `token.type === type && (!value || token.string === value)` */
  predicate Matches(t: Token, kind: TokenType, value: Option<string>)
  {
    t.kind == kind && (value.None? || value.value == "" || t.text == value.value)
  }

  datatype Parser =
    | Match(kind: TokenType, value: Option<string>)  // `Parser.token(type, value?)`
    | Map(p: Parser, f: Value -> Value)
    | If(p: Parser, pred: Value -> bool)
    | Or(p: Parser, q: Parser)
    | And(p: Parser, q: Parser)
    | Maybe(p: Parser)
    | Many(p: Parser)
    | Commit(p: Parser)
    | Ahead(p: Parser)                 // the lookahead parser built by `with`
    | NotAhead(p: Parser)              // the lookahead parser built by `without`
    | TypeScan(stops: set<string>)     // `typeParser(stops)`

  // ---- combinators defined from the constructors ----

  /** `p.drop()`: match `p` and replace its value with the drop marker. */
  function Drop(p: Parser): Parser
  {
    Map(p, _ => Dropped)
  }

  /** `p.as(key)`: match `p` and wrap its value as the tagged object `{ key: value }`. */
  function As(p: Parser, key: string): Parser
  {
    Map(p, v => Obj(map[key := v], true))
  }

  /** `p.some()`: one `p`, then `many` of it. */
  function SomeOf(p: Parser): Parser
  {
    And(p, Many(p))
  }

  /** `sep.join(item)`: `item`, then any number of `sep item` with `sep` dropped. */
  function SepBy(sep: Parser, item: Parser): Parser
  {
    And(item, Many(And(Drop(sep), item)))
  }

  /** `p.with(q)`: `p` followed by `q`, without consuming `q`. */
  function With(p: Parser, q: Parser): Parser
  {
    And(p, Drop(Ahead(q)))
  }

  /** `p.without(q)`: `p` when not followed by `q`. */
  function Without(p: Parser, q: Parser): Parser
  {
    And(p, Drop(NotAhead(q)))
  }

  /** `Parser.or(p1, ..., pn)`: a left fold of `or`. */
  function OrAll(ps: seq<Parser>): Parser
    requires |ps| >= 1
  {
    if |ps| == 1 then ps[0] else Or(OrAll(ps[..|ps| - 1]), ps[|ps| - 1])
  }

  /** `Parser.and(p1, ..., pn)`: a left fold of `and`. */
  function AndAll(ps: seq<Parser>): Parser
    requires |ps| >= 1
  {
    if |ps| == 1 then ps[0] else And(AndAll(ps[..|ps| - 1]), ps[|ps| - 1])
  }

  /** Tokens left before the end. */
  function Rem(toks: seq<Token>, st: State): nat
  {
    if st.offset < |toks| then |toks| - st.offset else 0
  }

  /** 0 once the stream is eager: setting the flag counts as progress. */
  function Rank(st: State): nat
  {
    if st.eager then 0 else 1
  }

  /**
   * How a normal parse may move the state: the offset never goes back, never moves
   * past the end, and the eager flag is never cleared.
   */
  predicate Advances(toks: seq<Token>, s: State, t: State)
  {
    s.offset <= t.offset && (t.offset == s.offset || t.offset <= |toks|) && (s.eager ==> t.eager)
  }

  /**
   * What running `p` on `toks` from state `st` returns, and the state it leaves.
   * `keepTag` picks how `and` merges: the union of two tagged objects stays tagged
   * (`true`, the corrected merge) or, as merge.ts is written, comes out untagged (`false`).
   */
  function Eval(p: Parser, toks: seq<Token>, st: State, keepTag: bool): (r: Res)
    ensures Normal(r.out) ==> Advances(toks, st, r.st)
    decreases Rem(toks, st), Rank(st), p, 0
  {
    match p
    case Match(kind, value) =>
      if st.offset >= |toks| then Res(Failure(false), st)
      else if Matches(toks[st.offset], kind, value) then
        Res(Success(Tok(toks[st.offset])), st.(offset := st.offset + 1))
      else TryBacktrack(toks, st.(offset := st.offset + 1), st.offset, false)
    case Map(q, f) =>
      var r := Eval(q, toks, st, keepTag);
      if r.out.Success? then Res(Success(f(r.out.value)), r.st) else r
    case If(q, pred) =>
      var r := Eval(q, toks, st, keepTag);
      if r.out.Success? && !pred(r.out.value) then Res(Failure(true), r.st) else r
    case Or(a, b) =>
      var r := Eval(a, toks, st, keepTag);
      if r.out.Failure? then Eval(b, toks, r.st, keepTag) else r
    case And(a, b) =>
      var r1 := Eval(a, toks, st, keepTag);
      if r1.out.Failure? then TryBacktrack(toks, r1.st, st.offset, r1.out.matched)
      else if !r1.out.Success? then r1
      else
        var r2 := Eval(b, toks, r1.st, keepTag);
        if r2.out.Failure? then TryBacktrack(toks, r2.st, st.offset, true)
        else if !r2.out.Success? then r2
        else Res(Success(MergeWith(r1.out.value, r2.out.value, keepTag)), r2.st)
    case Maybe(q) =>
      var r := Eval(q, toks, st, keepTag);
      if r.out.Failure? then Res(Success(Null), r.st) else r
    case Many(q) =>
      ManyLoop(q, toks, st, [], keepTag)
    case Commit(q) =>
      var r := Eval(q, toks, st, keepTag);
      if r.out.Failure? && r.out.matched then Res(Fatal(ErrorAt(toks, r.st.offset)), r.st)
      else if r.out.Success? then Res(r.out, r.st.(eager := true))
      else r
    case Ahead(q) =>
      var r := Eval(q, toks, st, keepTag);
      if Normal(r.out) then Res(r.out, r.st.(offset := st.offset)) else r
    case NotAhead(q) =>
      var r := Eval(q, toks, st, keepTag);
      if Normal(r.out) then
        Res(if r.out.Success? then Failure(false) else Success(Null), r.st.(offset := st.offset))
      else r
    case TypeScan(stops) =>
      var sc := TypeScan.ScanFrom(toks, st.offset, 0, stops);
      if |sc.parts| == 0 then Res(Failure(false), st)
      else Res(Success(Str(Join(sc.parts, ""))), st.(offset := sc.end))
  }

  /**
   * The loop of `many` after collecting `acc`: it stops at the first failure and
   * keeps the state that failure left, with no snapshot of its own.
   */
  function ManyLoop(q: Parser, toks: seq<Token>, st: State, acc: seq<Value>, keepTag: bool): (r: Res)
    ensures Normal(r.out) ==> Advances(toks, st, r.st)
    ensures !r.out.Failure?
    ensures r.out.Success? ==>
      r.out.value.Arr? && |r.out.value.items| >= |acc| && r.out.value.items[..|acc|] == acc
    decreases Rem(toks, st), Rank(st), q, 1
  {
    var r := Eval(q, toks, st, keepTag);
    if r.out.Failure? then Res(Success(Arr(acc)), r.st)
    else if !r.out.Success? then r
    else if r.st == st then Res(Diverge, st)
    else
      var next := ManyLoop(q, toks, r.st, acc + [r.out.value], keepTag);
      assert next.out.Success? ==> next.out.value.items[..|acc|] == (acc + [r.out.value])[..|acc|];
      next
  }

  // ---- the interpreter ----

  /** Runs `p` on the stream, as `p.parse(stream)` does, with the merge `keepTag` picks. */
  method Run(p: Parser, s: ParseStream, keepTag: bool) returns (out: Outcome)
    modifies s, s.base
    ensures var r := Eval(p, s.base.content, old(s.Snapshot()), keepTag);
      out == r.out && (Normal(out) ==> s.Snapshot() == r.st)
    decreases Rem(s.base.content, s.Snapshot()), Rank(s.Snapshot()), p, 2
  {
    match p
    case Match(kind, value) => out := RunMatch(kind, value, s, keepTag);
    case Map(q, f) =>
      out := Run(q, s, keepTag);
      if out.Success? {
        out := Success(f(out.value));
      }
    case If(q, pred) =>
      out := Run(q, s, keepTag);
      if out.Success? && !pred(out.value) {
        out := Failure(true);
      }
    case Or(a, b) =>
      out := Run(a, s, keepTag);
      if out.Failure? {
        out := Run(b, s, keepTag);
      }
    case And(a, b) => out := RunAnd(a, b, s, keepTag);
    case Maybe(q) =>
      out := Run(q, s, keepTag);
      if out.Failure? {
        out := Success(Null);
      }
    case Many(q) => out := RunMany(q, s, keepTag);
    case Commit(q) =>
      out := Run(q, s, keepTag);
      if out.Failure? && out.matched {
        out := Fatal(s.base.Error());
      } else if out.Success? {
        s.eager := true;
      }
    case Ahead(q) =>
      var offset := s.base.offset;
      out := Run(q, s, keepTag);
      if Normal(out) {
        s.base.Seek(offset);
      }
    case NotAhead(q) =>
      var offset := s.base.offset;
      var result := Run(q, s, keepTag);
      if !Normal(result) {
        return result;
      }
      s.base.Seek(offset);
      out := if result.Success? then Failure(false) else Success(Null);
    case TypeScan(stops) =>
      var scanned := TypeScan.ScanTypes(s.base, stops);
      out := if scanned.None? then Failure(false) else Success(Str(scanned.value));
  }

  /** `Parser.token(type, value)`: fails when done, else takes one token and backtracks on a mismatch. */
  method RunMatch(kind: TokenType, value: Option<string>, s: ParseStream, keepTag: bool) returns (out: Outcome)
    modifies s.base
    ensures var r := Eval(Match(kind, value), s.base.content, old(s.Snapshot()), keepTag);
      out == r.out && s.Snapshot() == r.st
  {
    if s.base.Done() {
      return Failure(false);
    }
    var saved := s.base.offset;
    var token := s.base.Next();
    if Matches(token.value, kind, value) {
      return Success(Tok(token.value));
    }
    out := s.Backtrack(saved, false);
  }

  /** `a.and(b)`: both in sequence inside one `try`. */
  method RunAnd(a: Parser, b: Parser, s: ParseStream, keepTag: bool) returns (out: Outcome)
    modifies s, s.base
    ensures var r := Eval(And(a, b), s.base.content, old(s.Snapshot()), keepTag);
      out == r.out && (Normal(out) ==> s.Snapshot() == r.st)
    decreases Rem(s.base.content, s.Snapshot()), Rank(s.Snapshot()), And(a, b), 1
  {
    var saved := s.base.offset;
    var resultT := Run(a, s, keepTag);
    if resultT.Failure? {
      out := s.Backtrack(saved, resultT.matched);
      return;
    }
    if !resultT.Success? {
      return resultT;
    }
    var resultU := Run(b, s, keepTag);
    if resultU.Failure? {
      out := s.Backtrack(saved, true);
      return;
    }
    if !resultU.Success? {
      return resultU;
    }
    return Success(MergeWith(resultT.value, resultU.value, keepTag));
  }

  /**
   * `q.many()`: the `while (true)` loop pushing each value. Where the source would
   * loop forever (a success that leaves the state as it was) this returns `Diverge`.
   */
  method RunMany(q: Parser, s: ParseStream, keepTag: bool) returns (out: Outcome)
    modifies s, s.base
    ensures var r := Eval(Many(q), s.base.content, old(s.Snapshot()), keepTag);
      out == r.out && (Normal(out) ==> s.Snapshot() == r.st)
    decreases Rem(s.base.content, s.Snapshot()), Rank(s.Snapshot()), Many(q), 1
  {
    ghost var toks := s.base.content;
    ghost var entry := s.Snapshot();
    var results: seq<Value> := [];
    while true
      invariant Advances(toks, entry, s.Snapshot())
      invariant ManyLoop(q, toks, entry, [], keepTag) == ManyLoop(q, toks, s.Snapshot(), results, keepTag)
      decreases Rem(toks, s.Snapshot()), Rank(s.Snapshot())
    {
      var before := s.Snapshot();
      var result := Run(q, s, keepTag);
      if result.Failure? {
        return Success(Arr(results));
      }
      if !result.Success? {
        return result;
      }
      if s.Snapshot() == before {
        return Diverge;
      }
      results := results + [result.value];
    }
  }

  /** `parser.parse(content)`: a fresh stream at offset 0, not eager. */
  method Parse(p: Parser, content: seq<Token>, keepTag: bool) returns (out: Outcome)
    ensures out == Eval(p, content, State(0, false), keepTag).out
  {
    var s := new ParseStream(content);
    out := Run(p, s, keepTag);
  }
}
