/**
 * The grammar of the builtins file and the `parseAST` driver: leading comments,
 * imports, then enum-like classes, then assignments, then methods, then the end
 * marker, each read by one top-level parse on a single shared stream.
 *
 * The driver takes the corrections it applies as a parameter (`Fixes`). As
 * written, the stream's eager flag, once set by the first committed `from`,
 * `class` or `def`, stays set for every later top-level parse, which makes any
 * method unreachable; the union of two named fields loses the object marker; and
 * an enum's items are probed even at the `class` of the next enum, which throws;
 * and a parameter is probed even at the `)` of an empty list, which throws.
 * `DriverAsWritten` applies none of the corrections, `Driver` all four.
 */
module Ast {
  import opened Wrappers
  import opened Strings
  import opened Tokenizer
  import opened Merging
  import opened Streams
  import opened Base
  import opened BaseLaws
  import opened TokenParsers

  // ---- the grammar ----

  /** `P.comment().many().drop()` */
  function Comments(): Parser { Drop(Many(Comment())) }

  /** `from MODULE import a, b`: the module and the list of names. */
  function ImportParser(): Parser
  {
    And(And(And(
      Commit(Drop(Name(Some("from")))),
      As(Name(None), "module")),
      Drop(Name(Some("import")))),
      As(SepBy(Op(Some(",")), Name(None)), "names"))
  }

  /** `NAME : TYPE "doc"`, one member of an enum-like class. */
  function EnumItem(): Parser
  {
    And(And(And(
      As(Name(None), "name"),
      Drop(Op(Some(":")))),
      As(Name(None), "type")),
      As(StringP(None), "docstring"))
  }

  /**
   * What cannot start an enum item: the name `class` or `def`, or a token that is no
   * name at all. Each alternative fails without matching where it does not apply.
   */
  function NotItemStart(): Parser
  {
    Or(Or(Name(Some("class")), Name(Some("def"))), NotAhead(Name(None)))
  }

  /**
   * An enum item tried only where one can start. The guard fails without matching,
   * so on an eager stream the `many` of items stops there instead of throwing.
   */
  function GuardedEnumItem(): Parser
  {
    And(Drop(NotAhead(NotItemStart())), EnumItem())
  }

  /** The parser of one enum item, guarded when `guard` is set. */
  function ItemParser(guard: bool): Parser
  {
    if guard then GuardedEnumItem() else EnumItem()
  }

  /** `class NAME : ["doc"] item*`, the items guarded when `guard` is set. */
  function EnumParserWith(guard: bool): Parser
  {
    And(And(And(And(
      Commit(Drop(Name(Some("class")))),
      As(Name(None), "name")),
      Drop(Op(Some(":")))),
      Drop(Maybe(StringP(None)))),
      As(Many(ItemParser(guard)), "items"))
  }

  /** `class NAME : ["doc"] item*`, as written. */
  function EnumParser(): Parser
  {
    EnumParserWith(false)
  }

  /** `NAME = NAME [(] [)] ["doc"]`, read and thrown away. */
  function Assignment(): Parser
  {
    And(And(And(And(And(
      Drop(Name(None)),
      Drop(Op(Some("=")))),
      Drop(Name(None))),
      Drop(Maybe(Op(Some("("))))),
      Drop(Maybe(Op(Some(")"))))),
      Drop(Maybe(StringP(None))))
  }

  /** `{ ...items }` for an array: its elements under the keys "0", "1", ... */
  function Spread(items: seq<Value>): (m: map<string, Value>)
    ensures forall k :: k in m ==> AllDigits(k)
    ensures forall i :: 0 <= i < |items| ==> NatToString(i) in m && m[NatToString(i)] == items[i]
  {
    if |items| == 0 then map[]
    else
      var last := |items| - 1;
      var m := Spread(items[..last]);
      assert forall i :: 0 <= i < last ==> NatToString(i) != NatToString(last) by {
        forall i | 0 <= i < last
          ensures NatToString(i) != NatToString(last)
        {
          DigitsRoundTrip(i);
          DigitsRoundTrip(last);
        }
      }
      assert forall i :: 0 <= i < last ==> items[..last][i] == items[i];
      m[NatToString(last) := items[last]]
  }

  /**
   * The own enumerable fields a spread copies: an object's fields, an array's
   * elements by index. Only objects and arrays reach a spread in the grammar;
   * anything else is read as having no fields.
   */
  function OwnFields(v: Value): map<string, Value>
  {
    if v.Obj? then v.fields else if v.Arr? then Spread(v.items) else map[]
  }

  /**
   * `{ ...v, [key]: key in v ? v[key] : dflt }`: the fields of `v` with `key` filled
   * in when missing. The spread copies enumerable fields only, so the result never
   * carries the object marker.
   */
  function WithDefault(v: Value, key: string, dflt: Value): (r: Value)
    ensures r.Obj? && !r.tagged && key in r.fields
    ensures key in OwnFields(v) ==> r.fields[key] == OwnFields(v)[key]
    ensures key !in OwnFields(v) ==> r.fields[key] == dflt
    ensures r.fields.Keys == OwnFields(v).Keys + {key}
    ensures forall k :: k in OwnFields(v) ==> r.fields[k] == OwnFields(v)[k]
  {
    var fields := OwnFields(v);
    Obj(fields[key := if key in fields then fields[key] else dflt], false)
  }

  function WithDefaultType(v: Value): Value { WithDefault(v, "type", Str("Any")) }
  function WithDefaultReturns(v: Value): Value { WithDefault(v, "returns", Str("Any")) }

  /** `params ?? []` */
  function OrEmpty(v: Value): (r: Value)
    ensures v.Null? ==> r == Arr([])
    ensures !v.Null? ==> r == v
  {
    if v.Null? then Arr([]) else v
  }

  /** `[*|**] NAME [: TYPE] [= CONSTANT]`, with the type defaulting to `Any`. */
  function Param(): Parser
  {
    Map(
      And(And(And(
        Drop(Maybe(Or(Op(Some("**")), Op(Some("*"))))),
        As(Name(None), "name")),
        Maybe(And(Drop(Op(Some(":"))), As(TypeScan({",", ")", "="}), "type")))),
        Maybe(And(Drop(Op(Some("="))), As(Constant(), "default")))),
      WithDefaultType)
  }

  /** What can start a parameter: `**`, `*` or a name. */
  function ParamStart(): Parser
  {
    Or(Or(Op(Some("**")), Op(Some("*"))), Name(None))
  }

  /**
   * A parameter tried only where one can start. The guard fails without matching,
   * so at the `)` of an empty list the parameters are absent instead of throwing.
   */
  function GuardedParam(): Parser
  {
    And(Drop(Ahead(ParamStart())), Param())
  }

  /** The parser of one parameter, guarded when `guard` is set. */
  function ParamParser(guard: bool): Parser
  {
    if guard then GuardedParam() else Param()
  }

  /** The parameter list, an empty array when there is none; guarded when `guard` is set. */
  function ParamsWith(guard: bool): Parser
  {
    As(Map(Maybe(SepBy(Op(Some(",")), ParamParser(guard))), OrEmpty), "params")
  }

  /** The parameter list, as written. */
  function Params(): Parser
  {
    ParamsWith(false)
  }

  /**
   * `def NAME ( params [,] ) [-> TYPE] : "doc" ...`, with the return type defaulting
   * to `Any`; the parameters guarded when `guard` is set.
   */
  function MethodParserWith(guard: bool): Parser
  {
    Map(
      And(And(And(And(And(And(
        Commit(Drop(Name(Some("def")))),
        As(Name(None), "name")),
        And(And(And(Drop(Op(Some("("))), ParamsWith(guard)), Drop(Maybe(Op(Some(","))))), Drop(Op(Some(")"))))),
        Maybe(And(Drop(Op(Some("->"))), As(TypeScan({":"}), "returns")))),
        Drop(Op(Some(":")))),
        As(StringP(None), "docstring")),
        Drop(Op(Some("...")))),
      WithDefaultReturns)
  }

  /** The method parser, as written. */
  function MethodParser(): Parser
  {
    MethodParserWith(false)
  }

  // ---- the driver, as a function of the tokens ----

  /** How `parseAST` ends without a result. */
  datatype Abort =
    | LexFailed(lex: LexError)          // `tokenize` threw
    | Thrown(error: SyntaxError<Token>) // `stream.error()` threw
    | Hangs                             // a `many` that would loop forever

  /** A value and the state after it. */
  datatype Step = Step(value: Value, st: State)

  /** The values a loop collected and the state it stopped in. */
  datatype Collected = Collected(values: seq<Value>, st: State)

  /** What `parseAST` returns: the enum-like classes and the methods. */
  datatype Declarations = Declarations(enums: seq<Value>, methods: seq<Value>)

  /** The result and the final state of the driver. */
  datatype Parsed = Parsed(decls: Declarations, end: State)

  /**
   * The corrections a run of the driver applies: `reset` starts each top-level parse
   * non-eager, `keepTag` keeps the object marker on a union of named fields (the
   * merge `Eval` is given), `guardItems` tries an enum item only where one can start,
   * `guardParams` a parameter only where one can start.
   */
  datatype Fixes = Fixes(reset: bool, keepTag: bool, guardItems: bool, guardParams: bool)

  /** The state a top-level parse starts in: not eager when `reset`. */
  function Begin(st: State, reset: bool): State
  {
    if reset then st.(eager := false) else st
  }

  /**
   * `parseOrThrow(p)`: the value on success; on a plain failure the error `error()`
   * throws at the offset the failure left.
   */
  function OrThrow(p: Parser, toks: seq<Token>, st: State, keepTag: bool): Result<Step, Abort>
  {
    var r := Eval(p, toks, st, keepTag);
    match r.out
    case Success(v) => Ok(Step(v, r.st))
    case Failure(_) => Err(Thrown(ErrorAt(toks, r.st.offset)))
    case Fatal(e) => Err(Thrown(e))
    case Diverge => Err(Hangs)
  }

  /**
   * One of the `while (true)` loops of `parseAST` after collecting `acc`: skip
   * comments, try `item`; on a failure go back to where this round started and stop.
   */
  function Loop(item: Parser, toks: seq<Token>, st: State, acc: seq<Value>, fx: Fixes): (r: Result<Collected, Abort>)
    requires Consumes(item)
    ensures r.Ok? ==> |r.value.values| >= |acc| && r.value.values[..|acc|] == acc
    decreases Rem(toks, st)
  {
    match OrThrow(Comments(), toks, Begin(st, fx.reset), fx.keepTag)
    case Err(e) => Err(e)
    case Ok(c) =>
      var r := Eval(item, toks, Begin(c.st, fx.reset), fx.keepTag);
      match r.out
      case Failure(_) => Ok(Collected(acc, r.st.(offset := st.offset)))
      case Fatal(e) => Err(Thrown(e))
      case Diverge => Err(Hangs)
      case Success(v) =>
        ConsumesAdvances(item, toks, Begin(c.st, fx.reset), fx.keepTag);
        var next := Loop(item, toks, r.st, acc + [v], fx);
        assert next.Ok? ==> next.value.values[..|acc|] == (acc + [v])[..|acc|];
        next
  }

  /** `parseAST` on the tokens, with the corrections `fx` names. */
  function DriverWith(toks: seq<Token>, fx: Fixes): (r: Result<Parsed, Abort>)
    ensures r.Ok? ==> |r.value.decls.enums| >= 1
  {
    match OrThrow(Comments(), toks, Begin(State(0, false), fx.reset), fx.keepTag)
    case Err(e) => Err(e)
    case Ok(c) =>
    match OrThrow(Drop(Many(ImportParser())), toks, Begin(c.st, fx.reset), fx.keepTag)
    case Err(e) => Err(e)
    case Ok(i) =>
    match Loop(EnumParserWith(fx.guardItems), toks, i.st, [], fx)
    case Err(e) => Err(e)
    case Ok(enums) =>
    if |enums.values| == 0 then Err(Thrown(ErrorAt(toks, enums.st.offset)))
    else AfterEnums(toks, enums, fx)
  }

  /** The rest of `parseAST` once the enums are read: assignments, methods, the end marker. */
  function AfterEnums(toks: seq<Token>, enums: Collected, fx: Fixes): (r: Result<Parsed, Abort>)
    ensures r.Ok? ==> r.value.decls.enums == enums.values
  {
    match Loop(Assignment(), toks, enums.st, [], fx)
    case Err(e) => Err(e)
    case Ok(assigns) => AfterAssignments(toks, enums.values, assigns.st, fx)
  }

  /** The methods and the end marker, from `st`. */
  function AfterAssignments(toks: seq<Token>, enums: seq<Value>, st: State, fx: Fixes): (r: Result<Parsed, Abort>)
    ensures r.Ok? ==> r.value.decls.enums == enums
  {
    match Loop(MethodParserWith(fx.guardParams), toks, st, [], fx)
    case Err(e) => Err(e)
    case Ok(methods) =>
    match OrThrow(Drop(Eof()), toks, Begin(methods.st, fx.reset), fx.keepTag)
    case Err(e) => Err(e)
    case Ok(eof) => Ok(Parsed(Declarations(enums, methods.values), eof.st))
  }

  /** `parseAST` as written. */
  function DriverAsWritten(toks: seq<Token>): Result<Parsed, Abort>
  {
    DriverWith(toks, Fixes(false, false, false, false))
  }

  /** `parseAST` with all four corrections. */
  function Driver(toks: seq<Token>): Result<Parsed, Abort>
  {
    DriverWith(toks, Fixes(true, true, true, true))
  }

  // ---- the driver, as a method on a stream ----

  /** `parseOrThrow(p)`, starting the parse non-eager when `reset`. */
  method ParseOrThrow(p: Parser, s: ParseStream, reset: bool, keepTag: bool) returns (r: Result<Value, Abort>)
    modifies s, s.base
    ensures var o := OrThrow(p, s.base.content, Begin(old(s.Snapshot()), reset), keepTag);
      && (o.Ok? ==> r == Ok(o.value.value) && s.Snapshot() == o.value.st)
      && (o.Err? ==> r == Err(o.error))
  {
    if reset {
      s.eager := false;
    }
    var result := Run(p, s, keepTag);
    match result
    case Success(v) => r := Ok(v);
    case Failure(_) => r := Err(Thrown(s.base.Error()));
    case Fatal(e) => r := Err(Thrown(e));
    case Diverge => r := Err(Hangs);
  }

  /** One round of a declaration loop: skip comments, then try `item` once. */
  method LoopRound(item: Parser, s: ParseStream, fx: Fixes) returns (r: Result<Outcome, Abort>)
    modifies s, s.base
    ensures var c := OrThrow(Comments(), s.base.content, Begin(old(s.Snapshot()), fx.reset), fx.keepTag);
      && (c.Err? ==> r == Err(c.error))
      && (c.Ok? ==>
            var e := Eval(item, s.base.content, Begin(c.value.st, fx.reset), fx.keepTag);
            r == Ok(e.out) && (Normal(e.out) ==> s.Snapshot() == e.st))
  {
    var c := ParseOrThrow(Comments(), s, fx.reset, fx.keepTag);
    if c.Err? {
      return Err(c.error);
    }
    if fx.reset {
      s.eager := false;
    }
    var parsed := Run(item, s, fx.keepTag);
    r := Ok(parsed);
  }

  /** One `while (true)` loop of `parseAST`: the values of `item` until it fails. */
  method CollectLoop(item: Parser, s: ParseStream, fx: Fixes) returns (r: Result<seq<Value>, Abort>)
    requires Consumes(item)
    modifies s, s.base
    ensures var l := Loop(item, s.base.content, old(s.Snapshot()), [], fx);
      && (l.Ok? ==> r == Ok(l.value.values) && s.Snapshot() == l.value.st)
      && (l.Err? ==> r == Err(l.error))
  {
    ghost var toks := s.base.content;
    ghost var entry := s.Snapshot();
    var items: seq<Value> := [];
    while true
      invariant s.base.content == toks
      invariant Loop(item, toks, entry, [], fx) == Loop(item, toks, s.Snapshot(), items, fx)
      decreases Rem(toks, s.Snapshot())
    {
      ghost var before := s.Snapshot();
      var start := s.base.offset;
      var round := LoopRound(item, s, fx);
      match round {
        case Err(e) =>
          return Err(e);
        case Ok(Failure(_)) =>
          s.base.Seek(start);
          return Ok(items);
        case Ok(Fatal(e)) =>
          return Err(Thrown(e));
        case Ok(Diverge) =>
          return Err(Hangs);
        case Ok(Success(v)) =>
          ghost var c := OrThrow(Comments(), toks, Begin(before, fx.reset), fx.keepTag).value.st;
          ConsumesAdvances(item, toks, Begin(c, fx.reset), fx.keepTag);
          items := items + [v];
      }
    }
  }

  /**
   * `parseAST(content)`: tokenize, then read comments, imports, enums (at least
   * one), assignments, methods and the end marker, with the corrections `fx` names.
   */
  method ParseAst(content: string, fx: Fixes) returns (r: Result<Declarations, Abort>)
    ensures Lex(content).Err? ==> r == Err(LexFailed(Lex(content).error))
    ensures Lex(content).Ok? && DriverWith(Lex(content).value, fx).Ok? ==> r == Ok(DriverWith(Lex(content).value, fx).value.decls)
    ensures Lex(content).Ok? && DriverWith(Lex(content).value, fx).Err? ==> r == Err(DriverWith(Lex(content).value, fx).error)
  {
    var toks := Tokenize(content);
    if toks.Err? {
      return Err(LexFailed(toks.error));
    }
    var s := new ParseStream(toks.value);
    r := ParseDeclarations(s, fx);
  }

  /** The body of `parseAST` once the stream is built, up to and including the enums. */
  method ParseDeclarations(s: ParseStream, fx: Fixes) returns (r: Result<Declarations, Abort>)
    requires s.Snapshot() == State(0, false)
    modifies s, s.base
    ensures var d := DriverWith(s.base.content, fx);
      && (d.Ok? ==> r == Ok(d.value.decls))
      && (d.Err? ==> r == Err(d.error))
  {
    ghost var toks := s.base.content;
    var c := ParseOrThrow(Comments(), s, fx.reset, fx.keepTag);
    if c.Err? {
      return Err(c.error);
    }
    var imports := ParseOrThrow(Drop(Many(ImportParser())), s, fx.reset, fx.keepTag);
    if imports.Err? {
      return Err(imports.error);
    }
    ghost var afterImports := s.Snapshot();
    var enums := CollectLoop(EnumParserWith(fx.guardItems), s, fx);
    if enums.Err? {
      return Err(enums.error);
    }
    if |enums.value| == 0 {
      return Err(Thrown(s.base.Error()));
    }
    assert DriverWith(toks, fx) == AfterEnums(toks, Loop(EnumParserWith(fx.guardItems), toks, afterImports, [], fx).value, fx);
    r := ParseAfterEnums(s, enums.value, fx);
  }

  /** The assignment and method loops and the end marker of `parseAST`. */
  method ParseAfterEnums(s: ParseStream, enums: seq<Value>, fx: Fixes) returns (r: Result<Declarations, Abort>)
    modifies s, s.base
    ensures var d := AfterEnums(s.base.content, Collected(enums, old(s.Snapshot())), fx);
      && (d.Ok? ==> r == Ok(d.value.decls))
      && (d.Err? ==> r == Err(d.error))
  {
    var assigns := CollectLoop(Assignment(), s, fx);
    if assigns.Err? {
      return Err(assigns.error);
    }
    var methods := CollectLoop(MethodParserWith(fx.guardParams), s, fx);
    if methods.Err? {
      return Err(methods.error);
    }
    var eof := ParseOrThrow(Drop(Eof()), s, fx.reset, fx.keepTag);
    if eof.Err? {
      return Err(eof.error);
    }
    return Ok(Declarations(enums, methods.value));
  }
}
